/** A bounded broadcast channel: a ring of the newest messages over a log that only the proof remembers. */
module Broadcast {
  import opened Prelude

  const CAPACITY := 16

  datatype Received<+T> = Got(message: T) | Lagged(missed: nat) | Closed | Pending

  /** What a receiver at position `next` of `log` gets, and where it is afterwards. */
  function Receive<T>(log: seq<T>, next: nat, open: bool): (Received<T>, nat) {
    if next + CAPACITY < |log| then (Lagged(|log| - CAPACITY - next), |log| - CAPACITY)
    else if next < |log| then (Got(log[next]), next + 1)
    else (if open then Pending else Closed, next)
  }

  /** A lag tells how far the receiver jumps, which is to the oldest of the messages kept; otherwise none is skipped. */
  lemma ReceiveAdvances<T>(log: seq<T>, next: nat, open: bool)
    requires next <= |log|
    ensures var (r, after) := Receive(log, next, open);
            && next <= after <= |log| && (r.Closed? ==> !open) && (r.Pending? ==> open)
            && match r {
                 case Got(m) => after == next + 1 && m == log[next] && |log| - next <= CAPACITY
                 case Lagged(missed) => after == next + missed && missed > 0 && |log| - after == CAPACITY
                 case _ => after == next == |log|
               }
  {
  }

  class Channel<T> {
    var ring: array<Option<T>>
    var tail: nat
    var senders: nat
    var receivers: nat
    ghost var log: seq<T>

    /** The ring holds the newest messages of the log, each at its position modulo the capacity. */
    ghost predicate Valid()
      reads this, ring
    {
      && ring.Length == CAPACITY && tail == |log|
      && forall i :: 0 <= i < tail && tail <= i + CAPACITY ==> ring[i % CAPACITY] == Some(log[i])
    }

    constructor (senders: nat, receivers: nat)
      ensures Valid() && fresh(ring) && log == [] && this.senders == senders && this.receivers == receivers
    {
      ring := new Option<T>[CAPACITY](_ => None);
      tail, log := 0, [];
      this.senders, this.receivers := senders, receivers;
    }

    /** Without a receiver the message is refused; otherwise it overwrites the oldest one. */
    method Send(message: T) returns (ok: bool)
      requires Valid()
      modifies this`tail, this`log, ring
      ensures Valid()
      ensures ok == (receivers > 0)
      ensures log == if ok then old(log) + [message] else old(log)
    {
      ok := receivers > 0;
      if ok {
        ring[tail % CAPACITY] := Some(message);
        tail := tail + 1;
        log := log + [message];
      }
    }
  }

  class Receiver<T> {
    const channel: Channel<T>
    var next: nat

    ghost predicate Valid()
      reads this, channel, channel.ring
    {
      channel.Valid() && next <= channel.tail
    }

    constructor (channel: Channel<T>)
      ensures this.channel == channel && next == channel.tail
    {
      this.channel := channel;
      next := channel.tail;
    }

    /** On lag the receiver jumps to the oldest message still in the ring. */
    method Recv() returns (r: Received<T>)
      requires Valid()
      modifies this
      ensures Valid() && (r, next) == Receive(channel.log, old(next), channel.senders > 0)
    {
      if next + CAPACITY < channel.tail {
        r := Lagged(channel.tail - CAPACITY - next);
        next := channel.tail - CAPACITY;
      } else if next < channel.tail {
        r := Got(channel.ring[next % CAPACITY].value);
        next := next + 1;
      } else {
        r := if channel.senders > 0 then Pending else Closed;
      }
    }
  }

  // ---------------------------------------------------------------------------------------------------------
  // What one receiver has seen over time.

  /** One outcome of a receive: message `at` was taken, or the messages from `at` up to `to` were missed. */
  datatype Outcome = Took(at: nat) | Missed(at: nat, to: nat)

  function EndOf(o: Outcome): nat {
    match o
    case Took(at) => at + 1
    case Missed(_, to) => to
  }

  /** The outcomes cover the positions from `from` to `to`, one after the other, without gap or overlap. */
  ghost predicate Tiles(outcomes: seq<Outcome>, from: nat, to: nat) {
    if outcomes == [] then from == to
    else
      var last := outcomes[|outcomes| - 1];
      last.at < EndOf(last) == to && from <= last.at && Tiles(outcomes[..|outcomes| - 1], from, last.at)
  }

  /** Every covered position belongs to exactly one outcome. */
  lemma {:induction false} TilesCover(outcomes: seq<Outcome>, from: nat, to: nat, i: nat) returns (k: nat)
    requires Tiles(outcomes, from, to) && from <= i < to
    ensures k < |outcomes| && outcomes[k].at <= i < EndOf(outcomes[k])
  {
    var n := |outcomes| - 1;
    if outcomes[n].at <= i {
      k := n;
    } else {
      k := TilesCover(outcomes[..n], from, outcomes[n].at, i);
    }
  }

  /** Outcomes are in order: an earlier one ends where or before a later one begins. */
  lemma {:induction false} TilesOrdered(outcomes: seq<Outcome>, from: nat, to: nat, j: nat, k: nat)
    requires Tiles(outcomes, from, to) && j < k < |outcomes|
    ensures from <= outcomes[j].at < EndOf(outcomes[j]) <= outcomes[k].at < EndOf(outcomes[k]) <= to
    decreases |outcomes|
  {
    var n := |outcomes| - 1;
    if k < n {
      TilesOrdered(outcomes[..n], from, outcomes[n].at, j, k);
    } else {
      TilesBounds(outcomes[..n], from, outcomes[n].at, j);
    }
  }

  lemma {:induction false} TilesBounds(outcomes: seq<Outcome>, from: nat, to: nat, j: nat)
    requires Tiles(outcomes, from, to) && j < |outcomes|
    ensures from <= outcomes[j].at < EndOf(outcomes[j]) <= to
    decreases |outcomes|
  {
    var n := |outcomes| - 1;
    if j < n {
      TilesBounds(outcomes[..n], from, outcomes[n].at, j);
    }
  }

  /** Neighbouring outcomes touch, so two takes in a row are of neighbouring messages. */
  lemma {:induction false} TilesTouch(outcomes: seq<Outcome>, from: nat, to: nat, k: nat)
    requires Tiles(outcomes, from, to) && k + 1 < |outcomes|
    ensures outcomes[k + 1].at == EndOf(outcomes[k])
    decreases |outcomes|
  {
    var n := |outcomes| - 1;
    if k + 1 < n {
      TilesTouch(outcomes[..n], from, outcomes[n].at, k);
    }
  }
}
