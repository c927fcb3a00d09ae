/**
 * The relay loop of a standalone session, run again and again on the same channel ends. The client receiver keeps its
 * position over every stop and start, which is what makes the messages offered to the upstream server an in-order
 * subsequence of the accepted ones.
 */
module StandaloneRelay {
  import opened Prelude
  import opened Broadcast

  /** What happens next: another task sends or drops its end, or one arm of the relay's `select!` completes. */
  datatype Event<C, S> =
    | ClientSends(sent: C)
    | SenderDropped
    | ListenerDropped
    | FromTransport(message: S)
    | TransportEnds
    | PollClient
    | StopCancelled

  /**
   * `outcomes` and `offered` tell what became of the `accepted` messages before position `next`. The relay holds
   * neither end that clients use: their sender is gone when not `open`, their receiver when not `heard`.
   */
  datatype Path<C, S> = Path(
    accepted: seq<C>,
    next: nat,
    outcomes: seq<Outcome>,
    offered: seq<C>,
    delivered: seq<S>,
    open: bool,
    heard: bool)

  /** `Upstream::send`, for which somebody must have the sender. */
  function Accepting<C, S>(p: Path<C, S>, m: C): Path<C, S> {
    if p.open then p.(accepted := p.accepted + [m]) else p
  }

  /** One event, and whether the loop goes on. */
  function After<C, S>(p: Path<C, S>, e: Event<C, S>): (Path<C, S>, bool) {
    match e
    case ClientSends(m) => (Accepting(p, m), true)
    case SenderDropped => (p.(open := false), true)
    case ListenerDropped => (p.(heard := false), true)
    case FromTransport(m) => (if p.heard then p.(delivered := p.delivered + [m]) else p, true)
    case TransportEnds => (p, false)
    case StopCancelled => (p, false)
    case PollClient =>
      var (received, next) := Receive(p.accepted, p.next, p.open);
      match received {
        case Got(m) => (p.(next := next, outcomes := p.outcomes + [Took(p.next)], offered := p.offered + [m]), true)
        case Lagged(_) => (p.(next := next, outcomes := p.outcomes + [Missed(p.next, next)]), true)
        case Closed => (p, false)
        case Pending => (p, true)
      }
  }

  /** The loop over the first `n` events, and whether it is still running. */
  function Loop<C, S>(p: Path<C, S>, script: seq<Event<C, S>>, n: nat): (Path<C, S>, bool)
    requires n <= |script|
  {
    if n == 0 then (p, true)
    else
      var (q, running) := Loop(p, script, n - 1);
      if running then After(q, script[n - 1]) else (q, false)
  }

  /** Between two relays: `Stopped` has the channel ends, `Dangling` lost them to a cut connect. */
  datatype Phase = Stopped | Dangling

  datatype View<C, S> = View(path: Path<C, S>, phase: Phase)

  datatype Action<C, S> =
    | Send(message: C)
    | Start(connects: bool, script: seq<Event<C, S>>)

  /** One `Upstream::send` while no relay runs, or one `start` with its relay up to the restore. */
  function Act<C, S>(v: View<C, S>, a: Action<C, S>): View<C, S> {
    match a
    case Send(m) => if v.phase.Stopped? then v.(path := Accepting(v.path, m)) else v
    case Start(connects, script) =>
      if v.phase.Dangling? then v
      else if !connects then v.(phase := Dangling)
      else v.(path := Loop(v.path, script, |script|).0)
  }

  function History<C, S>(actions: seq<Action<C, S>>): View<C, S> {
    if actions == [] then View(Path([], 0, [], [], [], true, true), Stopped)
    else Act(History(actions[..|actions| - 1]), actions[|actions| - 1])
  }

  class StandaloneSession<C, S> {
    const client: Channel<C>
    const server: Channel<S>
    /** `Some` is `Stopped` with its receiver, `None` is `Started`. */
    var connection: Option<Receiver<C>>
    /** Everything put on the transports of this session. */
    var sink: seq<C>
    ghost var outcomes: seq<Outcome>
    ghost var cursor: nat

    ghost predicate Valid()
      reads this, client, client.ring, server, server.ring, if connection.Some? then {connection.value} else {}
    {
      && client.Valid() && server.Valid() && client.ring != server.ring as object && client != server as object
      && client.receivers == (if connection.Some? then 1 else 0)
      && (connection.Some? ==>
            connection.value.channel == client && connection.value.Valid() && connection.value.next == cursor)
    }

    ghost function Now(): View<C, S>
      reads this, client, server
    {
      View(PathAt(cursor), if connection.Some? then Stopped else Dangling)
    }

    ghost function PathAt(next: nat): Path<C, S>
      reads this, client, server
    {
      Path(client.log, next, outcomes, sink, server.log, client.senders > 0, server.receivers > 0)
    }

    constructor ()
      ensures Valid() && Now() == History([])
    {
      var c := new Channel<C>(1, 1);
      var s := new Channel<S>(2, 1);
      var r := new Receiver<C>(c);
      client, server, connection := c, s, Some(r);
      sink, outcomes, cursor := [], [], 0;
    }

    /** A client message while no relay is running. */
    method Accept(m: C) returns (ok: bool)
      requires Valid()
      modifies client, client.ring
      ensures Valid() && Now() == Act(old(Now()), Send(m)) && ok == (connection.Some? && client.senders > 0)
    {
      ok := client.senders > 0;
      if ok {
        ok := client.Send(m);
      }
    }

    /** The arm for the client's messages; `false` is the `break` on a closed channel. */
    method TakeNext(recv: Receiver<C>) returns (running: bool)
      requires client.Valid() && recv.Valid() && recv.channel == client
      modifies `sink, `outcomes, recv
      ensures recv.Valid() && (PathAt(recv.next), running) == After(old(PathAt(recv.next)), PollClient)
    {
      ghost var next := recv.next;
      running := true;
      var received := recv.Recv();
      match received {
        case Got(m) =>
          sink := sink + [m];
          outcomes := outcomes + [Took(next)];
        case Lagged(_) => outcomes := outcomes + [Missed(next, recv.next)];
        case Closed => running := false;
        case Pending =>
      }
    }

    /** The spawned relay task, up to its `break`. */
    method RelayLoop(recv: Receiver<C>, script: seq<Event<C, S>>)
      requires client.Valid() && server.Valid() && recv.Valid() && recv.channel == client
      requires client != server as object && client.ring != server.ring as object
      requires client.receivers > 0
      modifies `sink, `outcomes, recv, client`tail, client`log, client`senders, client.ring
      modifies server`tail, server`log, server`receivers, server.ring
      ensures client.Valid() && server.Valid() && recv.Valid()
      ensures PathAt(recv.next) == Loop(old(PathAt(recv.next)), script, |script|).0
    {
      ghost var before := PathAt(recv.next);
      var i := 0;
      var running := true;
      while running && i < |script|
        invariant i <= |script|
        invariant client.Valid() && server.Valid() && recv.Valid()
        invariant (PathAt(recv.next), running) == Loop(before, script, i)
      {
        match script[i] {
          case ClientSends(m) =>
            if client.senders > 0 {
              var _ := client.Send(m);
            }
          case SenderDropped => client.senders := 0;
          case ListenerDropped => server.receivers := 0;
          case FromTransport(m) =>
            var _ := server.Send(m);
          case TransportEnds => running := false;
          case StopCancelled => running := false;
          case PollClient => running := TakeNext(recv);
        }
        i := i + 1;
      }
      LoopIsOver(before, script, i);
    }

    /** One `start`: take the ends, connect, relay until the loop breaks, restore the ends. */
    method Run(connects: bool, script: seq<Event<C, S>>) returns (ok: bool)
      requires Valid()
      modifies this, client, client.ring, server, server.ring, if connection.Some? then {connection.value} else {}
      ensures Valid() && Now() == Act(old(Now()), Start(connects, script)) && ok == (connects && old(connection).Some?)
    {
      if connection.None? {
        return false;
      }
      var recv := connection.value;
      connection := None;
      if !connects {
        client.receivers := client.receivers - 1; // the receiver is dropped
        return false;
      }
      RelayLoop(recv, script);
      connection := Some(recv);
      cursor := recv.next;
      ok := true;
    }
  }

  /** Once the loop has broken, the rest of the script does not matter. */
  lemma {:induction false} LoopIsOver<C, S>(p: Path<C, S>, script: seq<Event<C, S>>, n: nat)
    requires n <= |script| && (Loop(p, script, n).1 ==> n == |script|)
    ensures Loop(p, script, |script|).0 == Loop(p, script, n).0
    decreases |script| - n
  {
    if n < |script| {
      assert Loop(p, script, n + 1) == (Loop(p, script, n).0, false);
      LoopIsOver(p, script, n + 1);
    }
  }

  // ---------------------------------------------------------------------------------------------------------
  // What every history keeps.

  /** The positions that were taken, oldest first. */
  function Positions(outcomes: seq<Outcome>): seq<nat> {
    if outcomes == [] then []
    else
      var last := outcomes[|outcomes| - 1];
      Positions(outcomes[..|outcomes| - 1]) + if last.Took? then [last.at] else []
  }

  /** The accepted messages at the positions `at`. */
  ghost predicate MessagesAt<C>(accepted: seq<C>, at: seq<nat>, messages: seq<C>) {
    |at| == |messages| && forall k :: 0 <= k < |at| ==> at[k] < |accepted| && messages[k] == accepted[at[k]]
  }

  /** A missed stretch is what an overrun of the ring leaves behind: at least a whole ring was newer. */
  predicate GenuineLag(o: Outcome, accepted: nat) {
    o.Missed? ==> o.at < o.to && o.to + CAPACITY <= accepted
  }

  ghost predicate Faithful<C, S>(p: Path<C, S>) {
    && p.next <= |p.accepted| && Tiles(p.outcomes, 0, p.next)
    && MessagesAt(p.accepted, Positions(p.outcomes), p.offered)
    && forall k :: 0 <= k < |p.outcomes| ==> GenuineLag(p.outcomes[k], |p.accepted|)
  }

  lemma AfterKeeps<C, S>(p: Path<C, S>, e: Event<C, S>)
    requires Faithful(p)
    ensures Faithful(After(p, e).0)
  {
    if e.PollClient? {
      PollKeeps(p);
    }
  }

  lemma PollKeeps<C, S>(p: Path<C, S>)
    requires Faithful(p)
    ensures Faithful(After(p, PollClient).0)
  {
  }

  lemma {:induction false} LoopKeeps<C, S>(p: Path<C, S>, script: seq<Event<C, S>>, n: nat)
    requires n <= |script| && Faithful(p)
    ensures Faithful(Loop(p, script, n).0)
  {
    if n > 0 {
      LoopKeeps(p, script, n - 1);
      AfterKeeps(Loop(p, script, n - 1).0, script[n - 1]);
    }
  }

  lemma {:induction false} HistoryFaithful<C, S>(actions: seq<Action<C, S>>)
    ensures Faithful(History(actions).path)
  {
    if actions != [] {
      var shorter := actions[..|actions| - 1];
      HistoryFaithful(shorter);
      var v := History(shorter);
      match actions[|actions| - 1]
      case Send(_) =>
      case Start(_, script) => LoopKeeps(v.path, script, |script|);
    }
  }

  /** The k-th position comes from an outcome that is no earlier than the k-th. */
  lemma {:induction false} PositionsComeFrom(outcomes: seq<Outcome>, k: nat) returns (i: nat)
    requires k < |Positions(outcomes)|
    ensures i < |outcomes| && outcomes[i] == Took(Positions(outcomes)[k])
    ensures Positions(outcomes[..i]) == Positions(outcomes)[..k]
    decreases |outcomes|
  {
    var n := |outcomes| - 1;
    var before := Positions(outcomes[..n]);
    if k < |before| {
      i := PositionsComeFrom(outcomes[..n], k);
      assert outcomes[..n][..i] == outcomes[..i];
    } else {
      i := n;
    }
  }

  /** Of two offers the later one was decided by a later outcome. */
  lemma EarlierPosition(outcomes: seq<Outcome>, j: nat, k: nat) returns (i: nat, i': nat)
    requires j < k < |Positions(outcomes)|
    ensures i < i' < |outcomes|
    ensures outcomes[i] == Took(Positions(outcomes)[j]) && outcomes[i'] == Took(Positions(outcomes)[k])
    ensures Positions(outcomes[..i]) == Positions(outcomes)[..j]
    ensures Positions(outcomes[..i']) == Positions(outcomes)[..k]
  {
    i' := PositionsComeFrom(outcomes, k);
    i := PositionsComeFrom(outcomes[..i'], j);
    assert outcomes[..i'][..i] == outcomes[..i];
  }

  /**
   * Over all cycles of stopping and starting, what reaches the transports is the accepted messages at strictly
   * increasing positions: in order, nothing twice.
   */
  lemma OfferedInOrder<C, S>(actions: seq<Action<C, S>>) returns (at: seq<nat>)
    ensures var p := History(actions).path;
            && MessagesAt(p.accepted, at, p.offered)
            && (forall j, k :: 0 <= j < k < |at| ==> at[j] < at[k])
            && at == Positions(p.outcomes)
  {
    HistoryFaithful(actions);
    var p := History(actions).path;
    at := Positions(p.outcomes);
    forall j, k | 0 <= j < k < |at| ensures at[j] < at[k] {
      var i, i' := EarlierPosition(p.outcomes, j, k);
      TilesOrdered(p.outcomes, 0, p.next, i, i');
    }
  }

  /**
   * Nothing else is skipped: every accepted message before the cursor was either offered or lies in a stretch that one
   * lagged receive reported, when at least a whole ring of newer messages had been accepted.
   */
  lemma NothingElseIsSkipped<C, S>(actions: seq<Action<C, S>>, i: nat)
    requires i < History(actions).path.next
    ensures var p := History(actions).path;
            || i in Positions(p.outcomes)
            || exists k :: 0 <= k < |p.outcomes| && p.outcomes[k].Missed? && p.outcomes[k].at <= i < p.outcomes[k].to
                 && p.outcomes[k].to + CAPACITY <= |p.accepted|
  {
    HistoryFaithful(actions);
    var p := History(actions).path;
    var k := TilesCover(p.outcomes, 0, p.next, i);
    if p.outcomes[k].Took? {
      TookIsAPosition(p.outcomes, k);
    }
  }

  lemma {:induction false} TookIsAPosition(outcomes: seq<Outcome>, k: nat)
    requires k < |outcomes| && outcomes[k].Took?
    ensures outcomes[k].at in Positions(outcomes)
    decreases |outcomes|
  {
    if k < |outcomes| - 1 {
      TookIsAPosition(outcomes[..|outcomes| - 1], k);
    }
  }

  /** And what was offered was not also missed. */
  lemma OfferedWasNotMissed<C, S>(actions: seq<Action<C, S>>, j: nat, k: nat)
    requires var p := History(actions).path;
             j < |Positions(p.outcomes)| && k < |p.outcomes| && p.outcomes[k].Missed?
    ensures var p := History(actions).path;
            !(p.outcomes[k].at <= Positions(p.outcomes)[j] < p.outcomes[k].to)
  {
    HistoryFaithful(actions);
    var p := History(actions).path;
    var i := PositionsComeFrom(p.outcomes, j);
    if i < k {
      TilesOrdered(p.outcomes, 0, p.next, i, k);
    } else {
      TilesOrdered(p.outcomes, 0, p.next, k, i);
    }
  }

  /** Between two offers in a row nothing is skipped, not even over a stop and a start: only a lagged receive skips. */
  lemma OnlyLagSkips<C, S>(actions: seq<Action<C, S>>, k: nat)
    requires var p := History(actions).path;
             k + 1 < |p.outcomes| && p.outcomes[k].Took? && p.outcomes[k + 1].Took?
    ensures History(actions).path.outcomes[k + 1].at == History(actions).path.outcomes[k].at + 1
  {
    HistoryFaithful(actions);
    var p := History(actions).path;
    TilesTouch(p.outcomes, 0, p.next, k);
  }
}
