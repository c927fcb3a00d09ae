/**
 * The event stream of an SSE connection. Server messages and error replies that bypass the server share one channel;
 * its only receiver is lent to one connection at a time, which reads until the first receive error.
 */
module SseStream {
  import opened Prelude
  import opened Broadcast

  datatype Entry<M> = FromServer(message: M) | Bypassed(message: M)

  /** The relay or a bypass guard sends, the stream is polled, or the client goes away. */
  datatype Happening<M> = RelaySends(m: M) | BypassSends(m: M) | Poll | Disconnect

  /** One connection so far: what the channel has carried, where its receiver is and what was yielded. */
  datatype Stream<M> = Stream(log: seq<Entry<M>>, next: nat, yielded: seq<Entry<M>>, running: bool)

  function After<M>(s: Stream<M>, h: Happening<M>, open: bool): Stream<M> {
    match h
    case RelaySends(m) => s.(log := s.log + [FromServer(m)])
    case BypassSends(m) => s.(log := s.log + [Bypassed(m)])
    case Disconnect => s.(running := false)
    case Poll =>
      if !s.running then s
      else
        var (received, next) := Receive(s.log, s.next, open);
        match received {
          case Got(e) => s.(next := next, yielded := s.yielded + [e])
          case Pending => s
          case _ => s.(next := next, running := false)
        }
  }

  function Connection<M>(log: seq<Entry<M>>, next: nat, script: seq<Happening<M>>, open: bool): Stream<M> {
    if script == [] then Stream(log, next, [], true)
    else After(Connection(log, next, script[..|script| - 1], open), script[|script| - 1], open)
  }

  /** The stream of one connection, run against a channel that others keep sending to. */
  method StreamEvents<M>(recv: Receiver<Entry<M>>, script: seq<Happening<M>>) returns (yielded: seq<Entry<M>>)
    requires recv.Valid() && recv.channel.receivers > 0
    modifies recv, recv.channel, recv.channel.ring
    ensures recv.Valid()
    ensures var s := Connection(old(recv.channel.log), old(recv.next), script, old(recv.channel.senders) > 0);
            recv.channel.log == s.log && recv.next == s.next && yielded == s.yielded
  {
    yielded := [];
    var i := 0;
    var running := true;
    ghost var open := recv.channel.senders > 0;
    while i < |script|
      invariant i <= |script| && recv.Valid()
      invariant unchanged(recv.channel`senders, recv.channel`receivers) && recv.channel.ring == old(recv.channel.ring)
      invariant Stream(recv.channel.log, recv.next, yielded, running) ==
                Connection(old(recv.channel.log), old(recv.next), script[..i], open)
    {
      assert script[..i + 1][..i] == script[..i];
      match script[i] {
        case RelaySends(m) =>
          var _ := recv.channel.Send(FromServer(m));
        case BypassSends(m) =>
          var _ := recv.channel.Send(Bypassed(m));
        case Disconnect => running := false;
        case Poll =>
          if running {
            var received := recv.Recv();
            match received {
              case Got(e) => yielded := yielded + [e];
              case Pending =>
              case Lagged(_) => running := false;
              case Closed => running := false;
            }
          }
      }
      i := i + 1;
    }
    assert script[..i] == script;
  }

  /** A connection delivers a contiguous block from its receiver's position on; only its last receive can skip. */
  lemma {:induction false} DeliversABlock<M>(log: seq<Entry<M>>, next: nat, script: seq<Happening<M>>, open: bool)
    requires next <= |log|
    ensures var s := Connection(log, next, script, open);
            && log <= s.log && next + |s.yielded| <= s.next <= |s.log|
            && s.yielded == s.log[next..next + |s.yielded|]
            && (s.next != next + |s.yielded| ==> !s.running && s.next + CAPACITY <= |s.log|)
  {
    if script != [] {
      var shorter := script[..|script| - 1];
      DeliversABlock(log, next, shorter, open);
      BlockStep(log, next, Connection(log, next, shorter, open), script[|script| - 1], open);
    }
  }

  ghost predicate IsBlock<M>(log: seq<Entry<M>>, next: nat, s: Stream<M>) {
    && next <= |log| && log <= s.log && next + |s.yielded| <= s.next <= |s.log|
    && s.yielded == s.log[next..next + |s.yielded|]
    && (s.next != next + |s.yielded| ==> !s.running && s.next + CAPACITY <= |s.log|)
  }

  lemma BlockStep<M>(log: seq<Entry<M>>, next: nat, s: Stream<M>, h: Happening<M>, open: bool)
    requires IsBlock(log, next, s)
    ensures IsBlock(log, next, After(s, h, open))
  {
  }

  // ---------------------------------------------------------------------------------------------------------
  // What the script says, without the stream.

  /** Everything that is sent meanwhile, the relay's messages and the bypassed ones merged. */
  function SentIn<M>(script: seq<Happening<M>>): seq<Entry<M>> {
    if script == [] then []
    else
      SentIn(script[..|script| - 1]) +
      match script[|script| - 1]
      case RelaySends(m) => [FromServer(m)]
      case BypassSends(m) => [Bypassed(m)]
      case _ => []
  }

  /** How many entries are unread, how many were read, and whether the client is still there. */
  datatype Pace = Pace(unread: nat, got: nat, running: bool)

  /** One poll: a lag and a closed channel end the stream, an empty channel makes it wait. */
  function Polled(p: Pace, open: bool): Pace {
    if !p.running then p
    else if p.unread > CAPACITY then p.(unread := CAPACITY, running := false)
    else if p.unread > 0 then p.(unread := p.unread - 1, got := p.got + 1)
    else p.(running := open)
  }

  function PaceOf<M>(unread: nat, script: seq<Happening<M>>, open: bool): Pace {
    if script == [] then Pace(unread, 0, true)
    else
      var p := PaceOf(unread, script[..|script| - 1], open);
      match script[|script| - 1]
      case Poll => Polled(p, open)
      case Disconnect => p.(running := false)
      case _ => p.(unread := p.unread + 1)
  }

  /**
   * Everything sent stays in the log, in order, whether the client is there or not; the connection reads and yields one
   * entry with each poll that finds one, until it ends.
   */
  lemma {:induction false} ReadsExactly<M>(log: seq<Entry<M>>, next: nat, script: seq<Happening<M>>, open: bool)
    requires next <= |log|
    ensures var s, p := Connection(log, next, script, open), PaceOf(|log| - next, script, open);
            && s.log == log + SentIn(script) && s.next <= |s.log|
            && p == Pace(|s.log| - s.next, |s.yielded|, s.running)
  {
    if script != [] {
      ReadsExactly(log, next, script[..|script| - 1], open);
    }
  }

  /** Once the client is gone or a receive has failed, the receiver and what was yielded stay as they are. */
  lemma {:induction false} NothingAfterTheEnd<M>(log: seq<Entry<M>>, next: nat, script: seq<Happening<M>>, i: nat,
                                                 open: bool)
    requires i <= |script|
    requires !Connection(log, next, script[..i], open).running || (i > 0 && script[i - 1].Disconnect?)
    ensures var s, was := Connection(log, next, script, open), Connection(log, next, script[..i], open);
            s.next == was.next && s.yielded == was.yielded && !s.running
    decreases |script|
  {
    if i == |script| {
      assert script[..i] == script;
    } else {
      assert script[..|script| - 1][..i] == script[..i];
      NothingAfterTheEnd(log, next, script[..|script| - 1], i, open);
    }
  }

  // ---------------------------------------------------------------------------------------------------------
  // Successive connections on one session object.

  /** The channel and its receiver after the connections `scripts`, each with the sends that happened around it. */
  function Served<M>(scripts: seq<seq<Happening<M>>>, open: bool): (seq<Entry<M>>, nat) {
    if scripts == [] then ([], 0)
    else
      var (log, next) := Served(scripts[..|scripts| - 1], open);
      var s := Connection(log, next, scripts[|scripts| - 1], open);
      (s.log, s.next)
  }

  /** The block of positions that connection `k` delivered. */
  function BlockOf<M>(scripts: seq<seq<Happening<M>>>, k: nat, open: bool): (nat, nat)
    requires k < |scripts|
  {
    var (log, next) := Served(scripts[..k], open);
    (next, next + |Connection(log, next, scripts[k], open).yielded|)
  }

  function YieldedBy<M>(scripts: seq<seq<Happening<M>>>, k: nat, open: bool): seq<Entry<M>>
    requires k < |scripts|
  {
    var (log, next) := Served(scripts[..k], open);
    Connection(log, next, scripts[k], open).yielded
  }

  lemma {:induction false} ServedIsValid<M>(scripts: seq<seq<Happening<M>>>, open: bool)
    ensures Served(scripts, open).1 <= |Served(scripts, open).0|
  {
    if scripts != [] {
      var shorter := scripts[..|scripts| - 1];
      ServedIsValid(shorter, open);
      DeliversABlock(Served(shorter, open).0, Served(shorter, open).1, scripts[|scripts| - 1], open);
    }
  }

  lemma {:induction false} ServedGrows<M>(scripts: seq<seq<Happening<M>>>, k: nat, open: bool)
    requires k <= |scripts|
    ensures Served(scripts[..k], open).0 <= Served(scripts, open).0
    ensures Served(scripts[..k], open).1 <= Served(scripts, open).1
    decreases |scripts|
  {
    if k == |scripts| {
      assert scripts[..k] == scripts;
    } else {
      var shorter := scripts[..|scripts| - 1];
      ServedGrows(shorter, k, open);
      assert shorter[..k] == scripts[..k];
      ServedIsValid(shorter, open);
      DeliversABlock(Served(shorter, open).0, Served(shorter, open).1, scripts[|scripts| - 1], open);
    }
  }

  lemma AfterOne<M>(scripts: seq<seq<Happening<M>>>, k: nat, open: bool)
    requires k < |scripts|
    ensures var (log, next) := Served(scripts[..k], open);
            var s := Connection(log, next, scripts[k], open);
            next <= |log| && Served(scripts[..k + 1], open) == (s.log, s.next)
  {
    assert scripts[..k + 1][..k] == scripts[..k];
    ServedIsValid(scripts[..k], open);
  }

  /**
   * Whatever is sent in between, connection `k` delivers exactly the block `BlockOf` of the merged log, and the blocks
   * of successive connections are disjoint and increasing.
   */
  lemma BlocksIncrease<M>(scripts: seq<seq<Happening<M>>>, j: nat, k: nat, open: bool)
    requires j < k < |scripts|
    ensures var log := Served(scripts, open).0;
            var (from, to), (from', to') := BlockOf(scripts, j, open), BlockOf(scripts, k, open);
            && from <= to <= from' <= to' <= |log|
            && YieldedBy(scripts, j, open) == log[from..to] && YieldedBy(scripts, k, open) == log[from'..to']
  {
    BlockIsDelivered(scripts, j, open);
    BlockIsDelivered(scripts, k, open);
    AfterOne(scripts, j, open);
    DeliversABlock(Served(scripts[..j], open).0, Served(scripts[..j], open).1, scripts[j], open);
    ServedGrows(scripts[..k], j + 1, open);
    assert scripts[..k][..j + 1] == scripts[..j + 1];
  }

  lemma BlockIsDelivered<M>(scripts: seq<seq<Happening<M>>>, k: nat, open: bool)
    requires k < |scripts|
    ensures var log := Served(scripts, open).0;
            var (from, to) := BlockOf(scripts, k, open);
            from <= to <= |log| && YieldedBy(scripts, k, open) == log[from..to]
  {
    AfterOne(scripts, k, open);
    var (log, next) := Served(scripts[..k], open);
    DeliversABlock(log, next, scripts[k], open);
    ServedGrows(scripts, k + 1, open);
    var (from, to) := BlockOf(scripts, k, open);
    assert Served(scripts, open).0[from..to] == Connection(log, next, scripts[k], open).log[from..to];
  }

  /** A connection that did not end in a receive error leaves nothing out before the next one. */
  lemma NextBlockIsAdjacent<M>(scripts: seq<seq<Happening<M>>>, k: nat, open: bool)
    requires k + 1 < |scripts|
    requires var (log, next) := Served(scripts[..k], open);
             var s := Connection(log, next, scripts[k], open);
             s.running || s.next == next + |s.yielded|
    ensures BlockOf(scripts, k + 1, open).0 == BlockOf(scripts, k, open).1
  {
    AfterOne(scripts, k, open);
    DeliversABlock(Served(scripts[..k], open).0, Served(scripts[..k], open).1, scripts[k], open);
  }
}
