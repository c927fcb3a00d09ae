/**
 * The two relay loops of a raft-backed session as loops over real channels, and each turn of them as a step of the
 * cross-node routing machine.
 */
module RaftRelay {
  import opened Prelude
  import opened Broadcast
  import opened Routing

  /** What happens next: another task fills a channel, or one arm of a relay's `select!` completes. */
  datatype Happening =
    | ClientSends
    | NodePasses(event: Event)
    | PollRemote
    | PollClient(notified: bool)
    | FromTransport(notified: bool)
    | TransportEnds
    | StopCancelled

  /**
   * One object's side of the data plane: its client channel and the events of its node with the relay's positions in
   * them, what the relay put on transports and on the bus, and what is on the client's channel.
   */
  datatype View = View(
    client: seq<Message>,
    taken: nat,
    events: seq<Event>,
    read: nat,
    sink: seq<Message>,
    sent: seq<Event>,
    delivered: seq<Message>,
    emitted: nat)

  // ---------------------------------------------------------------------------------------------------------
  // One turn of a loop, and whether the loop goes on.

  function AfterRemote(role: Role, s: SessionId, v: View): View {
    var (received: Received<Event>, next: nat) := Receive(v.events, v.read, true);
    var moved := v.(read := next);
    match received
    case Got(ToMain(session, m)) => if role.Main? && session == s then moved.(sink := v.sink + [m]) else moved
    case Got(ToSub(session, m)) => if role.Sub? && session == s then moved.(delivered := v.delivered + [m]) else moved
    case _ => moved
  }

  function AfterClient(role: Role, s: SessionId, v: View, notified: bool): View {
    var (received, next) := Receive(v.client, v.taken, true);
    var moved := v.(taken := next);
    match received
    case Got(m) =>
      if role.Main? then moved.(sink := v.sink + [m])
      else if notified then moved.(sent := v.sent + [ToMain(s, m)])
      else moved
    case _ => moved
  }

  function AfterTransport(me: ReplicaId, s: SessionId, v: View, notified: bool): View {
    var m := Message(me, v.emitted);
    v.(emitted := v.emitted + 1, delivered := v.delivered + [m],
       sent := if notified then v.sent + [ToSub(s, m)] else v.sent)
  }

  predicate Fits(role: Role, h: Happening) {
    role.Sub? ==> !h.FromTransport? && !h.TransportEnds?
  }

  function After(role: Role, me: ReplicaId, s: SessionId, v: View, h: Happening): (View, bool) {
    match h
    case ClientSends => (v.(client := v.client + [Message(me, |v.client|)]), true)
    case NodePasses(event) => (v.(events := v.events + [event]), true)
    case PollRemote => (AfterRemote(role, s, v), true)
    case PollClient(notified) => (AfterClient(role, s, v, notified), true)
    case FromTransport(notified) => (AfterTransport(me, s, v, notified), true)
    case TransportEnds => (v, false)
    case StopCancelled => (v, false)
  }

  /** The loop over the first `n` happenings. */
  function Loop(role: Role, me: ReplicaId, s: SessionId, v: View, script: seq<Happening>, n: nat): (View, bool)
    requires n <= |script|
  {
    if n == 0 then (v, true)
    else
      var (w, running) := Loop(role, me, s, v, script, n - 1);
      if running then After(role, me, s, w, script[n - 1]) else (w, false)
  }

  lemma {:induction false} LoopIsOver(role: Role, me: ReplicaId, s: SessionId, v: View, script: seq<Happening>, n: nat)
    requires n <= |script| && (Loop(role, me, s, v, script, n).1 ==> n == |script|)
    ensures Loop(role, me, s, v, script, |script|).0 == Loop(role, me, s, v, script, n).0
    decreases |script| - n
  {
    if n < |script| {
      assert Loop(role, me, s, v, script, n + 1) == (Loop(role, me, s, v, script, n).0, false);
      LoopIsOver(role, me, s, v, script, n + 1);
    }
  }

  // ---------------------------------------------------------------------------------------------------------
  // The loops.

  class Relay {
    const me: ReplicaId
    const session: SessionId
    const client: Channel<Message>
    const events: Channel<Event>
    const server: Channel<Message>
    var sink: seq<Message>
    var sent: seq<Event>
    var emitted: nat

    /** An object keeps both ends that its clients use in slots that its relay shares, so neither is ever dropped. */
    ghost predicate Valid()
      reads client, client.ring, events, events.ring, server, server.ring
    {
      && client.Valid() && events.Valid() && server.Valid()
      && client != server && client != events as object && server != events as object
      && client.ring != server.ring && client.ring != events.ring as object && server.ring != events.ring as object
      && client.senders > 0 && client.receivers > 0 && events.senders > 0 && events.receivers > 0
      && server.receivers > 0
    }

    ghost function Now(recv: Receiver<Message>, remote: Receiver<Event>): View
      reads this, client, events, server, recv, remote
    {
      View(client.log, recv.next, events.log, remote.next, sink, sent, server.log, emitted)
    }

    constructor (me: ReplicaId, session: SessionId,
                 client: Channel<Message>, events: Channel<Event>, server: Channel<Message>)
      ensures this.me == me && this.session == session
      ensures this.client == client && this.events == events && this.server == server
      ensures sink == [] && sent == [] && emitted == 0
    {
      this.me, this.session, this.client, this.events, this.server := me, session, client, events, server;
      sink, sent, emitted := [], [], 0;
    }

    /** Another task's send into the client channel, or the listener's into the node's events. */
    method Others(h: Happening)
      requires Valid() && (h.ClientSends? || h.NodePasses?)
      modifies client`tail, client`log, client.ring, events`tail, events`log, events.ring
      ensures Valid()
      ensures h.ClientSends? ==> client.log == old(client.log) + [Message(me, |old(client.log)|)]
      ensures h.NodePasses? ==> client.log == old(client.log)
      ensures h.NodePasses? ==> events.log == old(events.log) + [h.event]
      ensures h.ClientSends? ==> events.log == old(events.log)
    {
      if h.ClientSends? {
        var _ := client.Send(Message(me, client.tail));
      } else {
        var _ := events.Send(h.event);
      }
    }

    /** The `select!` arm for the node's events, in a main and in a sub. */
    method HearAsMain(recv: Receiver<Message>, remote: Receiver<Event>)
      requires Valid() && recv.Valid() && recv.channel == client && remote.Valid() && remote.channel == events
      modifies `sink, remote
      ensures remote.Valid() && Now(recv, remote) == AfterRemote(Main, session, old(Now(recv, remote)))
    {
      var received := remote.Recv();
      match received {
        case Got(ToMain(s, m)) =>
          if s == session {
            sink := sink + [m];
          }
        case _ =>
      }
    }

    method HearAsSub(recv: Receiver<Message>, remote: Receiver<Event>)
      requires Valid() && recv.Valid() && recv.channel == client && remote.Valid() && remote.channel == events
      modifies remote, server`tail, server`log, server.ring
      ensures Valid() && remote.Valid() && Now(recv, remote) == AfterRemote(Sub, session, old(Now(recv, remote)))
    {
      var received := remote.Recv();
      match received {
        case Got(ToSub(s, m)) =>
          if s == session {
            var _ := server.Send(m);
          }
        case _ =>
      }
    }

    /** The arm for the client's messages; `false` is the `break` on a closed channel. */
    method TakeAsMain(recv: Receiver<Message>, remote: Receiver<Event>) returns (running: bool)
      requires Valid() && recv.Valid() && recv.channel == client && remote.Valid() && remote.channel == events
      modifies `sink, recv
      ensures recv.Valid() && running
      ensures forall notified :: Now(recv, remote) == AfterClient(Main, session, old(Now(recv, remote)), notified)
    {
      running := true;
      var received := recv.Recv();
      match received {
        case Got(m) => sink := sink + [m];
        case Closed => running := false;
        case _ =>
      }
    }

    method TakeAsSub(recv: Receiver<Message>, remote: Receiver<Event>, notified: bool) returns (running: bool)
      requires Valid() && recv.Valid() && recv.channel == client && remote.Valid() && remote.channel == events
      modifies `sent, recv
      ensures recv.Valid() && running
      ensures Now(recv, remote) == AfterClient(Sub, session, old(Now(recv, remote)), notified)
    {
      running := true;
      var received := recv.Recv();
      match received {
        case Got(m) =>
          if notified {
            sent := sent + [ToMain(session, m)];
          }
        case Closed => running := false;
        case _ =>
      }
    }

    /** The arm for the transport's messages: the event goes out before the message reaches the own client. */
    method PassOn(recv: Receiver<Message>, remote: Receiver<Event>, notified: bool)
      requires Valid() && recv.Valid() && recv.channel == client && remote.Valid() && remote.channel == events
      modifies `sent, `emitted, server`tail, server`log, server.ring
      ensures Valid() && Now(recv, remote) == AfterTransport(me, session, old(Now(recv, remote)), notified)
    {
      var m := Message(me, emitted);
      emitted := emitted + 1;
      if notified {
        sent := sent + [ToSub(session, m)];
      }
      var _ := server.Send(m);
    }

    /** The loop of a main relay, up to its `break`. */
    method MainLoop(recv: Receiver<Message>, remote: Receiver<Event>, script: seq<Happening>)
      requires Valid() && recv.Valid() && recv.channel == client && remote.Valid() && remote.channel == events
      modifies `sink, `sent, `emitted, recv, remote
      modifies client`tail, client`log, client.ring, events`tail, events`log, events.ring
      modifies server`tail, server`log, server.ring
      ensures Valid() && recv.Valid() && remote.Valid()
      ensures Now(recv, remote) == Loop(Main, me, session, old(Now(recv, remote)), script, |script|).0
    {
      ghost var before := Now(recv, remote);
      var i, running := 0, true;
      while running && i < |script|
        invariant i <= |script| && Valid() && recv.Valid() && remote.Valid()
        invariant (Now(recv, remote), running) == Loop(Main, me, session, before, script, i)
      {
        match script[i] {
          case ClientSends => Others(script[i]);
          case NodePasses(_) => Others(script[i]);
          case PollRemote => HearAsMain(recv, remote);
          case FromTransport(notified) => PassOn(recv, remote, notified);
          case TransportEnds => running := false;
          case PollClient(_) => running := TakeAsMain(recv, remote);
          case StopCancelled => running := false;
        }
        i := i + 1;
      }
      LoopIsOver(Main, me, session, before, script, i);
    }

    /** The loop of a sub relay, up to its `break`. */
    method SubLoop(recv: Receiver<Message>, remote: Receiver<Event>, script: seq<Happening>)
      requires Valid() && recv.Valid() && recv.channel == client && remote.Valid() && remote.channel == events
      requires forall i :: 0 <= i < |script| ==> Fits(Sub, script[i])
      modifies `sent, recv, remote
      modifies client`tail, client`log, client.ring, events`tail, events`log, events.ring
      modifies server`tail, server`log, server.ring
      ensures Valid() && recv.Valid() && remote.Valid()
      ensures Now(recv, remote) == Loop(Sub, me, session, old(Now(recv, remote)), script, |script|).0
    {
      ghost var before := Now(recv, remote);
      var i, running := 0, true;
      while running && i < |script|
        invariant i <= |script| && Valid() && recv.Valid() && remote.Valid()
        invariant (Now(recv, remote), running) == Loop(Sub, me, session, before, script, i)
      {
        match script[i] {
          case ClientSends => Others(script[i]);
          case NodePasses(_) => Others(script[i]);
          case PollRemote => HearAsSub(recv, remote);
          case PollClient(notified) => running := TakeAsSub(recv, remote, notified);
          case StopCancelled => running := false;
        }
        i := i + 1;
      }
      LoopIsOver(Sub, me, session, before, script, i);
    }
  }

  // ---------------------------------------------------------------------------------------------------------
  // Each turn is a step of the routing machine.

  function OffersOf(offers: seq<Offer>, r: ReplicaId): seq<Message> {
    if offers == [] then []
    else
      var last := offers[|offers| - 1];
      OffersOf(offers[..|offers| - 1], r) + if last.relay == r then [last.message] else []
  }

  function SentBy(bus: seq<Event>, r: ReplicaId): seq<Event> {
    if bus == [] then []
    else
      var last := bus[|bus| - 1];
      SentBy(bus[..|bus| - 1], r) + if last.message.origin == r then [last] else []
  }

  function DeliveriesTo(deliveries: seq<Delivery>, r: ReplicaId): seq<Message> {
    if deliveries == [] then []
    else
      var last := deliveries[|deliveries| - 1];
      DeliveriesTo(deliveries[..|deliveries| - 1], r) + if last.to == r then [last.message] else []
  }

  /** The log of a node holds positions of the bus. */
  predicate IsLog(log: seq<nat>, bus: seq<Event>) {
    forall p :: 0 <= p < |log| ==> log[p] < |bus|
  }

  function EventsAt(log: seq<nat>, bus: seq<Event>): seq<Event>
    requires IsLog(log, bus)
  {
    seq(|log|, p requires 0 <= p < |log| => bus[log[p]])
  }

  /** The part of the invariant that a relay's own turns rely on. */
  predicate Sound(net: Net, r: ReplicaId) {
    && r in net.replicas && net.replicas[r].node in net.log && IsLog(net.log[net.replicas[r].node], net.bus)
    && net.replicas[r].read <= |net.log[net.replicas[r].node]| && net.replicas[r].taken <= net.replicas[r].accepted
  }

  function ClientLog(r: ReplicaId, accepted: nat): seq<Message> {
    seq(accepted, i requires 0 <= i < accepted => Message(r, i))
  }

  /** The part of the cluster's data plane that object `r` sees. */
  function ViewOf(net: Net, r: ReplicaId): View
    requires Sound(net, r)
  {
    var own := net.replicas[r];
    View(ClientLog(r, own.accepted), own.taken, EventsAt(net.log[own.node], net.bus), own.read,
         OffersOf(net.offers, r), SentBy(net.bus, r), DeliveriesTo(net.deliveries, r), own.emitted)
  }

  /** The step that one happening in the loop of `r` is, if it changes anything. */
  function StepOf(net: Net, r: ReplicaId, h: Happening): Option<Step>
    requires Sound(net, r) && IsRunning(net, r)
  {
    match h
    case ClientSends => Some(Accept(r))
    case NodePasses(_) => None
    case PollRemote => RemoteStep(net, r)
    case PollClient(notified) => ClientStep(net, r, notified)
    case FromTransport(notified) => Some(if notified then Emit(r) else EmitLocal(r))
    case TransportEnds => Some(End(r))
    case StopCancelled => Some(End(r))
  }

  function RemoteStep(net: Net, r: ReplicaId): Option<Step>
    requires Sound(net, r) && IsRunning(net, r)
  {
    var own := net.replicas[r];
    var behind := |net.log[own.node]| - own.read;
    if behind > CAPACITY then Some(BusLag(r))
    else if behind == 0 then None
    else if own.phase.role.Main? && ForMain(net, r) then Some(ReadToMain(r))
    else if own.phase.role.Sub? && ForSub(net, r) then Some(ReadToSub(r))
    else Some(ReadOther(r))
  }

  function ClientStep(net: Net, r: ReplicaId, notified: bool): Option<Step>
    requires Sound(net, r) && IsRunning(net, r)
  {
    var own := net.replicas[r];
    if own.accepted - own.taken > CAPACITY then Some(ClientLag(r))
    else if own.accepted == own.taken then None
    else if own.phase.role.Main? then Some(ForwardDirect(r))
    else if notified then Some(ForwardBus(r))
    else Some(ForwardFail(r))
  }

  lemma InvIsSound(net: Net, r: ReplicaId)
    requires Inv(net) && r in net.replicas
    ensures Sound(net, r)
  {
  }

  // One message more, as `r` sees it.

  lemma OneMoreOffer(offers: seq<Offer>, o: Offer, r: ReplicaId)
    ensures OffersOf(offers + [o], r) == OffersOf(offers, r) + if o.relay == r then [o.message] else []
  {
    assert (offers + [o])[..|offers|] == offers;
  }

  lemma OneMoreDelivery(deliveries: seq<Delivery>, m: Delivery, r: ReplicaId)
    ensures DeliveriesTo(deliveries + [m], r) == DeliveriesTo(deliveries, r) + if m.to == r then [m.message] else []
  {
    assert (deliveries + [m])[..|deliveries|] == deliveries;
  }

  /** An event that is sent is in nobody's log yet. */
  lemma OneMoreEvent(bus: seq<Event>, e: Event, r: ReplicaId, log: seq<nat>)
    requires IsLog(log, bus)
    ensures SentBy(bus + [e], r) == SentBy(bus, r) + if e.message.origin == r then [e] else []
    ensures IsLog(log, bus + [e]) && EventsAt(log, bus + [e]) == EventsAt(log, bus)
  {
    assert (bus + [e])[..|bus|] == bus;
  }

  /** Happening `h` in the loop of `r` is step `e` of the machine, `None` being no step. */
  ghost predicate Simulates(net: Net, r: ReplicaId, h: Happening, e: Option<Step>)
    requires Sound(net, r) && IsRunning(net, r)
  {
    var (view, running) := After(net.replicas[r].phase.role, r, net.replicas[r].session, ViewOf(net, r), h);
    match e
    case None => view == ViewOf(net, r) && running
    case Some(step) =>
      && Enabled(net, step) && Sound(Perform(net, step), r)
      && view == ViewOf(Perform(net, step), r) && running == !step.End?
  }

  lemma MainReadTurn(net: Net, r: ReplicaId)
    requires Sound(net, r) && IsRunning(net, r) && RemoteStep(net, r) == Some(ReadToMain(r))
    ensures Simulates(net, r, PollRemote, Some(ReadToMain(r)))
  {
    OneMoreOffer(net.offers, Offer(NextEvent(net, r).message, r, Some(net.replicas[r].read)), r);
  }

  lemma SubReadTurn(net: Net, r: ReplicaId)
    requires Sound(net, r) && IsRunning(net, r) && RemoteStep(net, r) == Some(ReadToSub(r))
    ensures Simulates(net, r, PollRemote, Some(ReadToSub(r)))
  {
    OneMoreDelivery(net.deliveries, Delivery(NextEvent(net, r).message, r, Some(net.replicas[r].read)), r);
  }

  lemma RemoteTurn(net: Net, r: ReplicaId)
    requires Sound(net, r) && IsRunning(net, r)
    ensures Simulates(net, r, PollRemote, RemoteStep(net, r))
  {
    var e := RemoteStep(net, r);
    if e == Some(ReadToMain(r)) {
      MainReadTurn(net, r);
    } else if e == Some(ReadToSub(r)) {
      SubReadTurn(net, r);
    }
  }

  /** The next client message, if there is one and nothing is missed. */
  lemma NextClientMessage(net: Net, r: ReplicaId)
    requires Sound(net, r)
    requires net.replicas[r].taken < net.replicas[r].accepted <= net.replicas[r].taken + CAPACITY
    ensures var v := ViewOf(net, r);
            Receive(v.client, v.taken, true) == (Got(Message(r, v.taken)), v.taken + 1)
  {
    assert ViewOf(net, r).client[net.replicas[r].taken] == Message(r, net.replicas[r].taken);
  }

  lemma DirectTurn(net: Net, r: ReplicaId, notified: bool)
    requires Sound(net, r) && IsRunning(net, r) && ClientStep(net, r, notified) == Some(ForwardDirect(r))
    ensures Simulates(net, r, PollClient(notified), Some(ForwardDirect(r)))
  {
    NextClientMessage(net, r);
    OneMoreOffer(net.offers, Offer(Message(r, net.replicas[r].taken), r, None), r);
  }

  lemma BusTurn(net: Net, r: ReplicaId, notified: bool)
    requires Sound(net, r) && IsRunning(net, r) && ClientStep(net, r, notified) == Some(ForwardBus(r))
    ensures Simulates(net, r, PollClient(notified), Some(ForwardBus(r)))
  {
    var own := net.replicas[r];
    NextClientMessage(net, r);
    OneMoreEvent(net.bus, ToMain(own.session, Message(r, own.taken)), r, net.log[own.node]);
  }

  lemma ClientTurn(net: Net, r: ReplicaId, notified: bool)
    requires Sound(net, r) && IsRunning(net, r)
    ensures Simulates(net, r, PollClient(notified), ClientStep(net, r, notified))
  {
    var e := ClientStep(net, r, notified);
    if e == Some(ForwardDirect(r)) {
      DirectTurn(net, r, notified);
    } else if e == Some(ForwardBus(r)) {
      BusTurn(net, r, notified);
    }
  }

  lemma EmitTurn(net: Net, r: ReplicaId)
    requires Sound(net, r) && InPhase(net, r, Running(Main))
    ensures Simulates(net, r, FromTransport(true), Some(Emit(r)))
  {
    var own := net.replicas[r];
    var m := Message(r, own.emitted);
    OneMoreEvent(net.bus, ToSub(own.session, m), r, net.log[own.node]);
    OneMoreDelivery(net.deliveries, Delivery(m, r, None), r);
  }

  lemma EmitLocalTurn(net: Net, r: ReplicaId)
    requires Sound(net, r) && InPhase(net, r, Running(Main))
    ensures Simulates(net, r, FromTransport(false), Some(EmitLocal(r)))
  {
    OneMoreDelivery(net.deliveries, Delivery(Message(r, net.replicas[r].emitted), r, None), r);
  }

  lemma AcceptTurn(net: Net, r: ReplicaId)
    requires Sound(net, r) && IsRunning(net, r)
    ensures Simulates(net, r, ClientSends, Some(Accept(r)))
  {
    var own := net.replicas[r];
    assert ClientLog(r, own.accepted + 1) == ClientLog(r, own.accepted) + [Message(r, own.accepted)];
  }

  lemma EndTurn(net: Net, r: ReplicaId, h: Happening)
    requires Sound(net, r) && IsRunning(net, r) && (h.TransportEnds? || h.StopCancelled?)
    ensures Simulates(net, r, h, Some(End(r)))
  {
  }

  /** The listener's send of an event on the node of `r` is the node's handling of it. */
  lemma EventTurn(net: Net, r: ReplicaId, i: nat)
    requires Sound(net, r) && IsRunning(net, r) && Unhandled(net, net.replicas[r].node, i)
    ensures Simulates(net, r, NodePasses(net.bus[i]), Some(Handle(net.replicas[r].node, i)))
  {
    var log := net.log[net.replicas[r].node];
    assert EventsAt(log + [i], net.bus) == EventsAt(log, net.bus) + [net.bus[i]];
  }

  /** In every reachable state, every turn of a running loop is a step of the routing machine, or changes nothing. */
  lemma EachTurnIsAStep(members: map<ReplicaId, Member>, steps: seq<Step>, r: ReplicaId, h: Happening)
    requires Exec(members, steps).Some? && IsRunning(Exec(members, steps).value, r)
    requires Fits(Exec(members, steps).value.replicas[r].phase.role, h) && !h.NodePasses?
    ensures var net := Exec(members, steps).value;
            Sound(net, r) && Simulates(net, r, h, StepOf(net, r, h))
  {
    var net := Exec(members, steps).value;
    InvAlways(members, steps);
    InvIsSound(net, r);
    match h
    case ClientSends => AcceptTurn(net, r);
    case PollRemote => RemoteTurn(net, r);
    case PollClient(notified) => ClientTurn(net, r, notified);
    case FromTransport(notified) => if notified { EmitTurn(net, r); } else { EmitLocalTurn(net, r); }
    case _ => EndTurn(net, r, h);
  }

  // ---------------------------------------------------------------------------------------------------------
  // Whole loops, while everything else goes on.

  /** A turn of the object's own loop, or a step of anybody else: another object, or a node with an event. */
  datatype Turn = Mine(h: Happening) | Other(e: Step)

  predicate IsForeign(e: Step, r: ReplicaId) {
    e.Handle? || e.Lose? || e.r != r
  }

  /** What a foreign step is to the loop of `r`: an event on its node is passed on to it. */
  function HeardBy(net: Net, r: ReplicaId, e: Step): seq<Happening>
    requires Sound(net, r) && Enabled(net, e)
  {
    if e.Handle? && e.n == net.replicas[r].node then [NodePasses(net.bus[e.i])] else []
  }

  /** One more turn, after the steps `more` that made the loop's `script` so far; none once the loop has broken. */
  function TakeTurn(members: map<ReplicaId, Member>, steps: seq<Step>, r: ReplicaId,
                    more: seq<Step>, script: seq<Happening>, turn: Turn): Option<(seq<Step>, seq<Happening>)> {
    match Exec(members, steps + more)
    case None => None
    case Some(net) =>
      if !Sound(net, r) || !IsRunning(net, r) then None
      else
        match turn
        case Mine(h) =>
          if h.NodePasses? || !Fits(net.replicas[r].phase.role, h) then None
          else if StepOf(net, r, h).None? then Some((more, script + [h]))
          else Some((more + [StepOf(net, r, h).value], script + [h]))
        case Other(e) =>
          if IsForeign(e, r) && Enabled(net, e) then Some((more + [e], script + HeardBy(net, r, e))) else None
  }

  /** After `steps` the loop of `r` is running. */
  predicate Runs(members: map<ReplicaId, Member>, steps: seq<Step>, r: ReplicaId) {
    Exec(members, steps).Some? && IsRunning(Exec(members, steps).value, r)
  }

  /** The steps that `turns` are, from a running loop of `r` on, and what happens in the loop meanwhile. */
  function Weave(members: map<ReplicaId, Member>, steps: seq<Step>, r: ReplicaId, turns: seq<Turn>)
    : Option<(seq<Step>, seq<Happening>)>
  {
    if turns == [] then if Runs(members, steps, r) then Some(([], [])) else None
    else
      match Weave(members, steps, r, turns[..|turns| - 1])
      case None => None
      case Some((more, script)) => TakeTurn(members, steps, r, more, script, turns[|turns| - 1])
  }

  lemma ForeignOffer(net: Net, r: ReplicaId, e: Step)
    requires Sound(net, r) && Enabled(net, e) && IsForeign(e, r) && (e.ForwardDirect? || e.ReadToMain?)
    ensures Sound(Perform(net, e), r) && ViewOf(Perform(net, e), r) == ViewOf(net, r)
  {
    var own := Own(net, e.r);
    OneMoreOffer(net.offers, if e.ForwardDirect? then Offer(Message(e.r, own.taken), e.r, None)
                             else Offer(NextEvent(net, e.r).message, e.r, Some(own.read)), r);
  }

  lemma ForeignEmitLocal(net: Net, r: ReplicaId, e: Step)
    requires Sound(net, r) && Enabled(net, e) && IsForeign(e, r) && e.EmitLocal?
    ensures Sound(Perform(net, e), r) && ViewOf(Perform(net, e), r) == ViewOf(net, r)
  {
    OneMoreDelivery(net.deliveries, Delivery(Message(e.r, Own(net, e.r).emitted), e.r, None), r);
  }

  lemma ForeignRead(net: Net, r: ReplicaId, e: Step)
    requires Sound(net, r) && Enabled(net, e) && IsForeign(e, r) && e.ReadToSub?
    ensures Sound(Perform(net, e), r) && ViewOf(Perform(net, e), r) == ViewOf(net, r)
  {
    OneMoreDelivery(net.deliveries, Delivery(NextEvent(net, e.r).message, e.r, Some(Own(net, e.r).read)), r);
  }

  lemma ForeignForward(net: Net, r: ReplicaId, e: Step)
    requires Sound(net, r) && Enabled(net, e) && IsForeign(e, r) && e.ForwardBus?
    ensures Sound(Perform(net, e), r) && ViewOf(Perform(net, e), r) == ViewOf(net, r)
  {
    var own := Own(net, e.r);
    OneMoreEvent(net.bus, ToMain(own.session, Message(e.r, own.taken)), r, net.log[net.replicas[r].node]);
  }

  lemma ForeignEmit(net: Net, r: ReplicaId, e: Step)
    requires Sound(net, r) && Enabled(net, e) && IsForeign(e, r) && e.Emit?
    ensures Sound(Perform(net, e), r) && ViewOf(Perform(net, e), r) == ViewOf(net, r)
  {
    var own := Own(net, e.r);
    var m := Message(e.r, own.emitted);
    OneMoreEvent(net.bus, ToSub(own.session, m), r, net.log[net.replicas[r].node]);
    OneMoreDelivery(net.deliveries, Delivery(m, e.r, None), r);
  }

  lemma ForeignNode(net: Net, r: ReplicaId, e: Step)
    requires Sound(net, r) && Enabled(net, e) && (e.Handle? || e.Lose?) && HeardBy(net, r, e) == []
    ensures Sound(Perform(net, e), r) && ViewOf(Perform(net, e), r) == ViewOf(net, r)
  {
  }

  lemma ForeignMove(net: Net, r: ReplicaId, e: Step)
    requires Sound(net, r) && Enabled(net, e) && IsForeign(e, r) && Moves(e)
    ensures Sound(Perform(net, e), r) && ViewOf(Perform(net, e), r) == ViewOf(net, r)
  {
  }

  lemma OwnStays(net: Net, r: ReplicaId, e: Step)
    requires r in net.replicas && Enabled(net, e) && IsForeign(e, r)
    ensures r in Perform(net, e).replicas && Perform(net, e).replicas[r] == net.replicas[r]
  {
    OneMoves(net, e);
  }

  /** A foreign step that the loop of `r` does not hear leaves everything that `r` sees as it is. */
  lemma ForeignTurn(net: Net, r: ReplicaId, e: Step)
    requires Sound(net, r) && Enabled(net, e) && IsForeign(e, r) && HeardBy(net, r, e) == []
    ensures Sound(Perform(net, e), r) && ViewOf(Perform(net, e), r) == ViewOf(net, r)
  {
    if Moves(e) {
      ForeignMove(net, r, e);
    } else if e.ForwardDirect? || e.ReadToMain? {
      ForeignOffer(net, r, e);
    } else if e.EmitLocal? {
      ForeignEmitLocal(net, r, e);
    } else if e.ReadToSub? {
      ForeignRead(net, r, e);
    } else if e.ForwardBus? {
      ForeignForward(net, r, e);
    } else if e.Emit? {
      ForeignEmit(net, r, e);
    } else {
      ForeignNode(net, r, e);
    }
  }

  /** An object keeps its session and, until its loop ends, its phase. */
  lemma PhaseStep(net: Net, r: ReplicaId, h: Happening)
    requires Sound(net, r) && IsRunning(net, r) && Fits(net.replicas[r].phase.role, h)
    requires StepOf(net, r, h).Some? && Enabled(net, StepOf(net, r, h).value)
    ensures var d := Perform(net, StepOf(net, r, h).value);
            && r in d.replicas && d.replicas[r].session == net.replicas[r].session
            && d.replicas[r].phase == if StepOf(net, r, h).value.End? then Idle else net.replicas[r].phase
  {
  }

  /** `net` is where the loop of `r` in `role`, at `view` and `running`, has taken the machine. */
  ghost predicate Matches(net: Net, r: ReplicaId, s: SessionId, role: Role, at: (View, bool)) {
    && Sound(net, r) && at.0 == ViewOf(net, r) && net.replicas[r].session == s
    && net.replicas[r].phase == if at.1 then Running(role) else Idle
  }

  lemma {:induction false} LoopOfPrefix(role: Role, me: ReplicaId, s: SessionId, v: View,
                                        script: seq<Happening>, more: seq<Happening>, n: nat)
    requires n <= |script|
    ensures Loop(role, me, s, v, script + more, n) == Loop(role, me, s, v, script, n)
  {
    if n > 0 {
      LoopOfPrefix(role, me, s, v, script, more, n - 1);
    }
  }

  lemma LoopOneMore(role: Role, me: ReplicaId, s: SessionId, v: View, script: seq<Happening>, h: Happening)
    requires Loop(role, me, s, v, script, |script|).1
    ensures Loop(role, me, s, v, script + [h], |script| + 1) ==
            After(role, me, s, Loop(role, me, s, v, script, |script|).0, h)
  {
    LoopOfPrefix(role, me, s, v, script, [h], |script|);
  }

  /** The step of the machine that a taken turn is, if it is one. */
  lemma ExecOneMore(members: map<ReplicaId, Member>, steps: seq<Step>, e: Step, net: Net)
    requires Exec(members, steps) == Some(net) && Enabled(net, e)
    ensures Exec(members, steps + [e]) == Some(Perform(net, e))
  {
    assert (steps + [e])[..|steps|] == steps;
  }

  /** Where the loop is after `script`. */
  function LoopAt(role: Role, r: ReplicaId, s: SessionId, v: View, script: seq<Happening>): (View, bool) {
    Loop(role, r, s, v, script, |script|)
  }

  /** The loop goes with the machine to `d`, if a turn that is `h` shows what `r` sees there. */
  lemma LoopReaches(net: Net, r: ReplicaId, s: SessionId, role: Role, v: View, script: seq<Happening>, h: Happening,
                    d: Net, running: bool)
    requires Matches(net, r, s, role, LoopAt(role, r, s, v, script)) && IsRunning(net, r)
    requires Sound(d, r) && After(role, r, s, ViewOf(net, r), h) == (ViewOf(d, r), running)
    requires d.replicas[r].session == s && d.replicas[r].phase == if running then Running(role) else Idle
    ensures Matches(d, r, s, role, LoopAt(role, r, s, v, script + [h]))
  {
    LoopOneMore(role, r, s, v, script, h);
  }

  lemma StepMatches(net: Net, r: ReplicaId, s: SessionId, role: Role, v: View, script: seq<Happening>, h: Happening,
                    e: Step)
    requires Matches(net, r, s, role, LoopAt(role, r, s, v, script))
    requires IsRunning(net, r) && Fits(role, h) && StepOf(net, r, h) == Some(e) && Simulates(net, r, h, Some(e))
    ensures Matches(Perform(net, e), r, s, role, LoopAt(role, r, s, v, script + [h]))
  {
    PhaseStep(net, r, h);
    LoopReaches(net, r, s, role, v, script, h, Perform(net, e), !e.End?);
  }

  lemma HeardMatches(net: Net, r: ReplicaId, s: SessionId, role: Role, v: View, script: seq<Happening>, i: nat)
    requires Matches(net, r, s, role, LoopAt(role, r, s, v, script))
    requires IsRunning(net, r) && Unhandled(net, net.replicas[r].node, i)
    ensures Matches(Perform(net, Handle(net.replicas[r].node, i)), r, s, role,
                    LoopAt(role, r, s, v, script + [NodePasses(net.bus[i])]))
  {
    EventTurn(net, r, i);
    var d := Perform(net, Handle(net.replicas[r].node, i));
    LoopReaches(net, r, s, role, v, script, NodePasses(net.bus[i]), d, true);
  }

  lemma OtherMatches(net: Net, r: ReplicaId, s: SessionId, role: Role, v: View, script: seq<Happening>, e: Step)
    requires Matches(net, r, s, role, LoopAt(role, r, s, v, script))
    requires IsRunning(net, r) && Enabled(net, e) && IsForeign(e, r)
    ensures Matches(Perform(net, e), r, s, role, LoopAt(role, r, s, v, script + HeardBy(net, r, e)))
  {
    if HeardBy(net, r, e) == [] {
      OwnStays(net, r, e);
      ForeignTurn(net, r, e);
      assert script + HeardBy(net, r, e) == script;
    } else {
      HeardMatches(net, r, s, role, v, script, e.i);
    }
  }

  /** The loop and the machine agree after one more turn. */
  lemma TurnMatches(members: map<ReplicaId, Member>, steps: seq<Step>, r: ReplicaId, more: seq<Step>,
                    script: seq<Happening>, turn: Turn, s: SessionId, role: Role, v: View)
    requires Exec(members, steps + more).Some?
    requires Matches(Exec(members, steps + more).value, r, s, role, LoopAt(role, r, s, v, script))
    requires TakeTurn(members, steps, r, more, script, turn).Some?
    ensures var (more', script') := TakeTurn(members, steps, r, more, script, turn).value;
            && Exec(members, steps + more').Some?
            && Matches(Exec(members, steps + more').value, r, s, role, LoopAt(role, r, s, v, script'))
  {
    var net := Exec(members, steps + more).value;
    match turn
    case Mine(h) =>
      EachTurnIsAStep(members, steps + more, r, h);
      if StepOf(net, r, h).None? {
        LoopReaches(net, r, s, role, v, script, h, net, true);
      } else {
        var e := StepOf(net, r, h).value;
        StepMatches(net, r, s, role, v, script, h, e);
        ExecOneMore(members, steps + more, e, net);
        assert steps + (more + [e]) == steps + more + [e];
      }
    case Other(e) =>
      OtherMatches(net, r, s, role, v, script, e);
      ExecOneMore(members, steps + more, e, net);
      assert steps + (more + [e]) == steps + more + [e];
  }

  /**
   * A whole loop of a relay, whatever happens in it and whatever the other objects and the nodes do between its turns,
   * is a run of the routing machine that ends in the same view, and idle exactly when the loop has broken.
   */
  lemma {:induction false} LoopAmongOthers(
      members: map<ReplicaId, Member>, steps: seq<Step>, r: ReplicaId, turns: seq<Turn>)
    ensures Weave(members, steps, r, turns).Some? ==>
              IsLoopRun(members, steps, r, Weave(members, steps, r, turns).value)
  {
    if turns == [] {
      assert steps + [] == steps;
      if Runs(members, steps, r) {
        InvAlways(members, steps);
        InvIsSound(Exec(members, steps).value, r);
      }
    } else {
      var before := turns[..|turns| - 1];
      LoopAmongOthers(members, steps, r, before);
      if Weave(members, steps, r, turns).Some? {
        var (more, script) := Weave(members, steps, r, before).value;
        var net := Exec(members, steps).value;
        var own := net.replicas[r];
        TurnMatches(members, steps, r, more, script, turns[|turns| - 1], own.session, own.phase.role, ViewOf(net, r));
      }
    }
  }

  /** The woven steps take the machine from the running loop of `r` to where the woven script takes the loop. */
  ghost predicate IsLoopRun(members: map<ReplicaId, Member>, steps: seq<Step>, r: ReplicaId,
                            woven: (seq<Step>, seq<Happening>)) {
    var (more, script) := woven;
    && Runs(members, steps, r) && Sound(Exec(members, steps).value, r) && Exec(members, steps + more).Some?
    && var net := Exec(members, steps).value;
       var own := net.replicas[r];
       Matches(Exec(members, steps + more).value, r, own.session, own.phase.role,
               LoopAt(own.phase.role, r, own.session, ViewOf(net, r), script))
  }

  /** The loop of `r` is running after `steps`, and `turn` is one of its own or an enabled step of somebody else. */
  predicate IsNext(members: map<ReplicaId, Member>, steps: seq<Step>, r: ReplicaId, turn: Turn) {
    && Runs(members, steps, r)
    && var net := Exec(members, steps).value;
       match turn
       case Mine(h) => !h.NodePasses? && Fits(net.replicas[r].phase.role, h)
       case Other(e) => IsForeign(e, r) && Enabled(net, e)
  }

  /** Nothing is left out: while the loop runs, any turn of it and any enabled step of anybody else can come next. */
  lemma AnyTurnCanCome(members: map<ReplicaId, Member>, steps: seq<Step>, r: ReplicaId, turns: seq<Turn>, turn: Turn)
    ensures var woven := Weave(members, steps, r, turns);
            woven.Some? && IsNext(members, steps + woven.value.0, r, turn) ==>
              Weave(members, steps, r, turns + [turn]).Some?
  {
    LoopAmongOthers(members, steps, r, turns);
    assert (turns + [turn])[..|turns|] == turns;
  }
}
