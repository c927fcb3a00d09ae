/**
 * What a standalone session has accepted and what its clients got, read off the history of its calls and relays: one
 * recursion over calls and one over what happens to a relay, without the relay itself.
 */
module StandaloneHistory {
  import opened Prelude
  import opened Broadcast
  import opened StandaloneRelay

  /** How many accepted messages are unread, and whether clients still have their sender and their receiver. */
  datatype Gauge = Gauge(unread: nat, open: bool, heard: bool)

  /** The gauge after an event, unless the event ends the relay. */
  function Next<C, S>(g: Gauge, e: Event<C, S>): Option<Gauge> {
    match e
    case ClientSends(_) => Some(if g.open then g.(unread := g.unread + 1) else g)
    case SenderDropped => Some(g.(open := false))
    case ListenerDropped => Some(g.(heard := false))
    case FromTransport(_) => Some(g)
    case TransportEnds => None
    case StopCancelled => None
    case PollClient =>
      if g.unread > CAPACITY then Some(g.(unread := CAPACITY))
      else if g.unread > 0 then Some(g.(unread := g.unread - 1))
      else if g.open then Some(g)
      else None
  }

  /** How many events of the script the relay outlives. */
  function Extent<C, S>(g: Gauge, script: seq<Event<C, S>>): (n: nat)
    ensures n <= |script|
    decreases script
  {
    if script == [] || Next(g, script[0]).None? then 0 else 1 + Extent(Next(g, script[0]).value, script[1..])
  }

  function GaugeAfter<C, S>(g: Gauge, script: seq<Event<C, S>>): Gauge
    decreases script
  {
    if script == [] || Next(g, script[0]).None? then g else GaugeAfter(Next(g, script[0]).value, script[1..])
  }

  /** What clients send until they drop their sender. */
  function FromClients<C, S>(script: seq<Event<C, S>>, open: bool): seq<C> {
    if script == [] || !open then []
    else
      (if script[0].ClientSends? then [script[0].sent] else [])
      + FromClients(script[1..], !script[0].SenderDropped?)
  }

  /** What the transport brings until the clients' receiver is dropped. */
  function FromUpstream<C, S>(script: seq<Event<C, S>>, heard: bool): seq<S> {
    if script == [] || !heard then []
    else
      (if script[0].FromTransport? then [script[0].message] else [])
      + FromUpstream(script[1..], !script[0].ListenerDropped?)
  }

  /** The part of a script that the relay outlives. */
  function Outlived<C, S>(g: Gauge, script: seq<Event<C, S>>): seq<Event<C, S>> {
    script[..Extent(g, script)]
  }

  /** The gauge between two relays, or nothing once a cut connect has lost the ends. */
  function GaugeOf<C, S>(actions: seq<Action<C, S>>): Option<Gauge> {
    if actions == [] then Some(Gauge(0, true, true))
    else
      match GaugeOf(actions[..|actions| - 1])
      case None => None
      case Some(g) =>
        match actions[|actions| - 1]
        case Send(_) => Some(if g.open then g.(unread := g.unread + 1) else g)
        case Start(connects, script) => if connects then Some(GaugeAfter(g, script)) else None
  }

  /** Every client message that was accepted. */
  function Accepted<C, S>(actions: seq<Action<C, S>>): seq<C> {
    if actions == [] then []
    else
      var before := actions[..|actions| - 1];
      Accepted(before) +
      match GaugeOf(before)
      case None => []
      case Some(g) =>
        match actions[|actions| - 1]
        case Send(m) => if g.open then [m] else []
        case Start(connects, script) => if connects then FromClients(Outlived(g, script), g.open) else []
  }

  /** Every server message that reached the client channel. */
  function Delivered<C, S>(actions: seq<Action<C, S>>): seq<S> {
    if actions == [] then []
    else
      var before := actions[..|actions| - 1];
      Delivered(before) +
      match GaugeOf(before)
      case None => []
      case Some(g) =>
        match actions[|actions| - 1]
        case Send(_) => []
        case Start(connects, script) => if connects then FromUpstream(Outlived(g, script), g.heard) else []
  }

  // ---------------------------------------------------------------------------------------------------------
  // One relay.

  ghost predicate Shows<C, S>(p: Path<C, S>, g: Gauge) {
    p.next <= |p.accepted| && g == Gauge(|p.accepted| - p.next, p.open, p.heard)
  }

  /** The loop, seen from its first event. */
  lemma {:induction false} LoopFromFront<C, S>(p: Path<C, S>, script: seq<Event<C, S>>, n: nat)
    requires 0 < n <= |script|
    ensures Loop(p, script, n) ==
            if After(p, script[0]).1 then Loop(After(p, script[0]).0, script[1..], n - 1)
            else (After(p, script[0]).0, false)
  {
    if n == 1 {
      assert Loop(p, script, 0) == (p, true);
    } else {
      LoopFromFront(p, script, n - 1);
    }
  }

  /** From `p` to `q` the events of `part` have happened. */
  ghost predicate Grows<C, S>(p: Path<C, S>, part: seq<Event<C, S>>, q: Path<C, S>) {
    q.accepted == p.accepted + FromClients(part, p.open) && q.delivered == p.delivered + FromUpstream(part, p.heard)
  }

  lemma EventShows<C, S>(p: Path<C, S>, g: Gauge, e: Event<C, S>)
    requires Shows(p, g)
    ensures var (q, running) := After(p, e);
            && running == Next(g, e).Some?
            && (if running then Shows(q, Next(g, e).value) else q == p)
            && q.accepted == p.accepted + (if e.ClientSends? && p.open then [e.sent] else [])
            && q.delivered == p.delivered + (if e.FromTransport? && p.heard then [e.message] else [])
            && (q.open <==> p.open && !e.SenderDropped?) && (q.heard <==> p.heard && !e.ListenerDropped?)
  {
  }

  lemma GrowsOneMore<C, S>(p: Path<C, S>, e: Event<C, S>, q: Path<C, S>, rest: seq<Event<C, S>>, r: Path<C, S>)
    requires q.accepted == p.accepted + (if e.ClientSends? && p.open then [e.sent] else [])
    requires q.delivered == p.delivered + (if e.FromTransport? && p.heard then [e.message] else [])
    requires (q.open <==> p.open && !e.SenderDropped?) && (q.heard <==> p.heard && !e.ListenerDropped?)
    requires Grows(q, rest, r)
    ensures Grows(p, [e] + rest, r)
  {
    assert ([e] + rest)[1..] == rest;
  }

  lemma OutlivedOneMore<C, S>(g: Gauge, script: seq<Event<C, S>>)
    requires script != [] && Next(g, script[0]).Some?
    ensures Extent(g, script) == 1 + Extent(Next(g, script[0]).value, script[1..])
    ensures Outlived(g, script) == [script[0]] + Outlived(Next(g, script[0]).value, script[1..])
  {
  }

  /** A relay accepts and delivers what its script says up to the event that ends it. */
  lemma {:induction false} RelayExactly<C, S>(p: Path<C, S>, g: Gauge, script: seq<Event<C, S>>)
    requires Shows(p, g)
    ensures var q := Loop(p, script, |script|).0;
            Shows(q, GaugeAfter(g, script)) && Grows(p, Outlived(g, script), q)
    decreases |script|
  {
    if script != [] {
      var e, rest, q := script[0], script[1..], After(p, script[0]).0;
      EventShows(p, g, e);
      LoopFromFront(p, script, |script|);
      if Next(g, e).Some? {
        var h := Next(g, e).value;
        RelayExactly(q, h, rest);
        OutlivedOneMore(g, script);
        GrowsOneMore(p, e, q, Outlived(h, rest), Loop(q, rest, |rest|).0);
      }
    }
  }

  /** Nothing after that event matters. */
  lemma {:induction false} NothingAfterTheEnd<C, S>(p: Path<C, S>, g: Gauge, script: seq<Event<C, S>>)
    requires Shows(p, g)
    ensures Loop(p, script, |script|).0 == Loop(p, Outlived(g, script), Extent(g, script)).0
    decreases |script|
  {
    if script != [] {
      EventShows(p, g, script[0]);
      LoopFromFront(p, script, |script|);
      if Next(g, script[0]).Some? {
        var h, rest, part := Next(g, script[0]).value, script[1..], Outlived(g, script);
        NothingAfterTheEnd(After(p, script[0]).0, h, rest);
        OutlivedOneMore(g, script);
        LoopFromFront(p, part, |part|);
        assert part[0] == script[0] && part[1..] == Outlived(h, rest);
      }
    }
  }

  // ---------------------------------------------------------------------------------------------------------
  // All calls and relays.

  /**
   * Over all cycles of stopping and starting: the accepted client messages and the delivered server messages are, in
   * order and once each, those that the calls and scripts say, and the ends are lost exactly by a cut connect.
   */
  lemma {:induction false} HistoryExactly<C, S>(actions: seq<Action<C, S>>)
    ensures var v := History(actions);
            && v.path.accepted == Accepted(actions) && v.path.delivered == Delivered(actions)
            && (v.phase.Stopped? <==> GaugeOf(actions).Some?)
            && (GaugeOf(actions).Some? ==> Shows(v.path, GaugeOf(actions).value))
  {
    if actions != [] {
      var before, a := actions[..|actions| - 1], actions[|actions| - 1];
      HistoryExactly(before);
      if GaugeOf(before).Some? && a.Start? {
        RelayExactly(History(before).path, GaugeOf(before).value, a.script);
      }
    }
  }
}
