/**
 * How a session lends out one of its endpoints: a guard takes the endpoint out of its slot, and dropping the guard
 * sends it to a task that puts it back. The three slots of a session work alike and share nothing.
 */
module Guards {
  import opened Prelude

  // ---------------------------------------------------------------------------------------------------------
  // All interleavings of any number of guards and return tasks of one slot.

  type GuardId = nat

  /** `guards` are the live guards with what is inside them, `pending` the return tasks with what they have received. */
  datatype Lending<S> = Lending(
    slot: Option<S>,
    guards: map<GuardId, Option<S>>,
    pending: map<GuardId, Option<S>>)

  datatype Step<S> =
    | Lend(g: GuardId)
    | Update(g: GuardId, data: S)
    | Drop(g: GuardId)
    | GiveBack(g: GuardId)

  predicate Enabled<S>(l: Lending<S>, e: Step<S>) {
    match e
    case Lend(g) => l.slot.Some? && g !in l.guards && g !in l.pending
    case Update(g, _) => g in l.guards
    case Drop(g) => g in l.guards
    case GiveBack(g) => g in l.pending && l.pending[g].Some?
  }

  /** Dereferencing or dropping a guard whose inside is gone panics. */
  predicate Panics<S>(l: Lending<S>, e: Step<S>) {
    (e.Update? || e.Drop?) && e.g in l.guards && l.guards[e.g].None?
  }

  function Perform<S>(l: Lending<S>, e: Step<S>): Lending<S>
    requires Enabled(l, e)
  {
    match e
    case Lend(g) => Lending(None, l.guards[g := l.slot], l.pending[g := None])
    case Update(g, data) => l.(guards := l.guards[g := Some(data)])
    case Drop(g) => Lending(l.slot, l.guards - {g}, l.pending[g := l.guards[g]])
    case GiveBack(g) => Lending(l.pending[g], l.guards, l.pending - {g})
  }

  function Exec<S>(data: S, steps: seq<Step<S>>): Option<Lending<S>> {
    if steps == [] then Some(Lending(Some(data), map[], map[]))
    else
      match Exec(data, steps[..|steps| - 1])
      case None => None
      case Some(l) => if Enabled(l, steps[|steps| - 1]) then Some(Perform(l, steps[|steps| - 1])) else None
  }

  datatype Place = InSlot | InGuard(g: GuardId) | InReturn(g: GuardId)

  ghost predicate At<S>(l: Lending<S>, p: Place, data: S) {
    match p
    case InSlot => l.slot == Some(data)
    case InGuard(g) => g in l.guards && l.guards[g] == Some(data)
    case InReturn(g) => g in l.pending && l.pending[g] == Some(data)
  }

  /** The data the endpoint ends up with: what was put in last, whatever was lent and returned since. */
  function Latest<S>(data: S, steps: seq<Step<S>>): S {
    if steps == [] then data
    else if steps[|steps| - 1].Update? then steps[|steps| - 1].data
    else Latest(data, steps[..|steps| - 1])
  }

  function LentOut<S>(g: GuardId, data: S): Lending<S> {
    Lending(None, map[g := Some(data)], map[g := None])
  }

  function Underway<S>(g: GuardId, data: Option<S>): Lending<S> {
    Lending(None, map[], map[g := data])
  }

  /** The whole state, by where the endpoint is. */
  ghost predicate Shape<S>(l: Lending<S>, p: Place, data: S) {
    match p
    case InSlot => l == Lending(Some(data), map[], map[])
    case InGuard(g) => l == LentOut(g, data)
    case InReturn(g) => l == Underway(g, Some(data))
  }

  lemma {:induction false} ShapeAlways<S>(data: S, steps: seq<Step<S>>) returns (p: Place)
    requires Exec(data, steps).Some?
    ensures Shape(Exec(data, steps).value, p, Latest(data, steps))
  {
    if steps == [] {
      p := InSlot;
    } else {
      p := ShapeAlways(data, steps[..|steps| - 1]);
      match steps[|steps| - 1]
      case Lend(g) => p := InGuard(g);
      case Update(_, _) =>
      case Drop(g) => p := InReturn(g);
      case GiveBack(_) => p := InSlot;
    }
  }

  /**
   * In every run the endpoint is in exactly one of the slot, one live guard and one return task, and it carries what
   * was last put into it; at most one guard is alive.
   */
  lemma EndpointIsInOnePlace<S(!new)>(data: S, steps: seq<Step<S>>) returns (p: Place)
    requires Exec(data, steps).Some?
    ensures var l := Exec(data, steps).value;
            && At(l, p, Latest(data, steps))
            && (forall q: Place, other: S :: At(l, q, other) ==> q == p && other == Latest(data, steps))
            && (forall g, h :: g in l.guards && h in l.guards ==> g == h)
  {
    p := ShapeAlways(data, steps);
  }

  /** No guard panics when it is dropped or used, and no return overwrites a full slot. */
  lemma NoPanicNoOverwrite<S>(data: S, steps: seq<Step<S>>, e: Step<S>)
    requires Exec(data, steps).Some? && Enabled(Exec(data, steps).value, e)
    ensures !Panics(Exec(data, steps).value, e)
    ensures e.GiveBack? ==> Exec(data, steps).value.slot == None
  {
    var p := ShapeAlways(data, steps);
  }

  /** The endpoint can always move on: out of the slot to any new guard, through a guard, and back. */
  lemma EndpointMovesOn<S>(data: S, steps: seq<Step<S>>, g: GuardId, other: S) returns (p: Place)
    requires Exec(data, steps).Some?
    ensures var l := Exec(data, steps).value;
            && At(l, p, Latest(data, steps))
            && (Enabled(l, Lend(g)) <==> p.InSlot?)
            && (Enabled(l, Update(g, other)) <==> p == InGuard(g)) && (Enabled(l, Drop(g)) <==> p == InGuard(g))
            && (Enabled(l, GiveBack(g)) <==> p == InReturn(g))
  {
    p := ShapeAlways(data, steps);
  }

  // ---------------------------------------------------------------------------------------------------------
  // The objects.

  /** The one-shot channel between a guard and its return task. */
  class Oneshot<S> {
    var value: Option<S>

    constructor ()
      ensures value == None
    {
      value := None;
    }
  }

  class StreamGuard<S> {
    var inner: Option<(S, Oneshot<S>)>

    constructor (data: S, dropper: Oneshot<S>)
      ensures inner == Some((data, dropper))
    {
      inner := Some((data, dropper));
    }

    /** The drop-time panic is this method's precondition; `Lender.Valid` meets it for every guard it lent. */
    method Drop()
      requires inner.Some?
      modifies this, inner.value.1
      ensures inner == None && old(inner.value.1).value == Some(old(inner.value.0))
    {
      var (value, dropper) := inner.value;
      inner := None;
      dropper.value := Some(value);
    }

    /** Mutation through the guard, as when a receiver moves its cursor. */
    method Update(data: S)
      requires inner.Some?
      modifies this
      ensures inner == Some((data, old(inner.value.1)))
    {
      inner := Some((data, inner.value.1));
    }
  }

  /** One slot, with ghost knowledge of the guard and the return task that its endpoint went to. */
  class Lender<S> {
    var slot: Option<S>
    ghost var guard: StreamGuard?<S>
    ghost var task: Oneshot?<S>
    /** The number of the latest guard. */
    ghost var id: GuardId

    /** The endpoint is in exactly one of the slot, the live guard and the return task. */
    ghost predicate Valid()
      reads this, guard, task
    {
      match slot
      case Some(_) => guard == null && task == null
      case None =>
        && task != null
        && if guard != null then guard.inner.Some? && guard.inner.value.1 == task && task.value == None
           else task.value.Some?
    }

    /** Where the endpoint is, as a state of the lending machine. */
    ghost function Now(): Lending<S>
      reads this, guard, task
      requires Valid()
    {
      match slot
      case Some(data) => Lending(Some(data), map[], map[])
      case None =>
        if guard != null then LentOut(id, guard.inner.value.0) else Underway(id, task.value)
    }

    constructor (data: S)
      ensures Valid() && Exec(data, []) == Some(Now())
    {
      slot, guard, task := Some(data), null, null;
    }

    /** One round of the waiting loop: the slot may be empty, and then nothing happens. */
    method Lend(ghost g: GuardId) returns (lent: StreamGuard?<S>)
      requires Valid()
      modifies this
      ensures Valid() && slot == None
      ensures old(slot).None? ==> lent == null && guard == old(guard) && task == old(task) && id == old(id)
      ensures old(slot).Some? ==> id == g && Now() == Perform(old(Now()), Step.Lend(g))
      ensures old(slot).Some? ==>
                && lent != null && fresh(lent) && lent == guard
                && lent.inner.Some? && lent.inner.value.0 == old(slot).value
    {
      match slot {
        case None => lent := null;
        case Some(data) =>
          slot := None;
          var dropper := new Oneshot<S>();
          lent := new StreamGuard<S>(data, dropper);
          guard, task, id := lent, dropper, g;
      }
    }

    /** The holder of the lent guard changes the endpoint through it. */
    method UseGuard(lent: StreamGuard<S>, data: S)
      requires Valid() && lent == guard
      modifies lent
      ensures Valid() && Now() == Perform(old(Now()), Step.Update(id, data))
    {
      lent.Update(data);
    }

    /** The scope of the lent guard ends: its `Drop` runs, and cannot panic. */
    method DropGuard(lent: StreamGuard<S>)
      requires Valid() && lent == guard
      modifies this, lent, task
      ensures Valid() && guard == null && slot == None && task == old(task)
      ensures task.value == Some(old(lent.inner.value.0))
      ensures id == old(id) && Now() == Perform(old(Now()), Step.Drop(id))
    {
      lent.Drop();
      guard := null;
    }

    /** The return task, once its one-shot has fired: the slot it fills is empty. */
    method GiveBack(received: Oneshot<S>)
      requires Valid() && received == task && guard == null
      modifies this
      ensures Valid() && old(slot) == None && slot == old(received.value) && slot.Some?
      ensures Now() == Perform(old(Now()), Step.GiveBack(old(id)))
    {
      slot := Some(received.value.value);
      task := null;
    }
  }
}
