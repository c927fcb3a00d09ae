/** The standalone manager read backwards: what is found, which calls wait and who is cleaned up, by its steps. */
module ManagerHistory {
  import opened Prelude
  import opened StandaloneManager

  function Before(steps: seq<Step>): seq<Step>
    requires steps != []
  {
    steps[..|steps| - 1]
  }

  function Latest(steps: seq<Step>): Step
    requires steps != []
  {
    steps[|steps| - 1]
  }

  /** The url that session `id` was made with. */
  function MadeWith(steps: seq<Step>, id: SessionId): Option<Url> {
    if steps == [] then None
    else if Latest(steps).CreateNew? && Latest(steps).id == id then Some(Latest(steps).url)
    else MadeWith(Before(steps), id)
  }

  /** The session that call number `t` of `create` has still to insert. */
  function Inserting(steps: seq<Step>, t: TaskId): Option<SessionId> {
    if steps == [] then None
    else
      var e := Latest(steps);
      if e.CreateNew? && e.t == t then Some(e.id)
      else if (e.CreateInsert? || e.CreateDropped?) && e.t == t then None
      else Inserting(Before(steps), t)
  }

  /** The latest step inserts session `id`. */
  predicate InsertsNow(steps: seq<Step>, id: SessionId) {
    steps != [] && Latest(steps).CreateInsert? && Inserting(Before(steps), Latest(steps).t) == Some(id)
  }

  /** What `find` answers: the session from its insert to its cleanup. */
  function Findable(steps: seq<Step>, id: SessionId): Option<Url> {
    if steps == [] then None
    else if InsertsNow(steps, id) then MadeWith(Before(steps), id)
    else if Latest(steps) == CleanUp(id) then None
    else Findable(Before(steps), id)
  }

  predicate Returned(steps: seq<Step>, id: SessionId) {
    steps != [] && (InsertsNow(steps, id) || Returned(Before(steps), id))
  }

  predicate CleanedUp(steps: seq<Step>, id: SessionId) {
    steps != [] && (Latest(steps) == CleanUp(id) || CleanedUp(Before(steps), id))
  }

  /** The session was closed, or the manager stopped. */
  predicate Cancelled(steps: seq<Step>, id: SessionId) {
    steps != [] && (Latest(steps) in {Close(id), StopManager} || Cancelled(Before(steps), id))
  }

  ghost predicate IsTold(steps: seq<Step>, m: Manager) {
    && (forall id :: Lookup(m.made, id) == MadeWith(steps, id))
    && (forall t :: Inserting(steps, t) == if t in m.creating then Some(m.creating[t]) else None)
    && (forall id :: Lookup(m.sessions, id) == Findable(steps, id))
    && (forall id :: id in m.returned <==> Returned(steps, id))
    && (forall id :: id in m.waiting <==> MadeWith(steps, id).Some? && !CleanedUp(steps, id))
    && (forall id :: IsCancelled(m, id) <==> Cancelled(steps, id))
    && (forall id :: CleanedUp(steps, id) ==> MadeWith(steps, id).Some?)
  }

  lemma InsertTold(steps: seq<Step>, m: Manager)
    requires steps != [] && Inv(m) && IsTold(Before(steps), m) && Enabled(m, Latest(steps))
    requires Latest(steps).CreateInsert?
    ensures IsTold(steps, Perform(m, Latest(steps)))
  {
  }

  lemma CleanUpTold(steps: seq<Step>, m: Manager)
    requires steps != [] && Inv(m) && IsTold(Before(steps), m) && Enabled(m, Latest(steps))
    requires Latest(steps).CleanUp?
    ensures IsTold(steps, Perform(m, Latest(steps)))
  {
  }

  lemma OtherTold(steps: seq<Step>, m: Manager)
    requires steps != [] && Inv(m) && IsTold(Before(steps), m) && Enabled(m, Latest(steps))
    requires !Latest(steps).CreateInsert? && !Latest(steps).CleanUp?
    ensures IsTold(steps, Perform(m, Latest(steps)))
  {
  }

  lemma ToldStep(steps: seq<Step>, m: Manager)
    requires steps != [] && Inv(m) && IsTold(Before(steps), m) && Enabled(m, Latest(steps))
    ensures IsTold(steps, Perform(m, Latest(steps)))
  {
    if Latest(steps).CreateInsert? {
      InsertTold(steps, m);
    } else if Latest(steps).CleanUp? {
      CleanUpTold(steps, m);
    } else {
      OtherTold(steps, m);
    }
  }

  /** In every state, what is found and who waits for what is what the steps say. */
  lemma {:induction false} EverythingIsTold(steps: seq<Step>)
    requires Exec(steps).Some?
    ensures IsTold(steps, Exec(steps).value)
  {
    if steps != [] {
      EverythingIsTold(Before(steps));
      InvAlways(Before(steps));
      ToldStep(steps, Exec(Before(steps)).value);
    }
  }

  /**
   * A `create` can begin with an id that was never drawn, insert or be dropped while it waits, a session be closed once
   * its `create` has returned, and be cleaned up once, exactly when it is cancelled; the manager can stop at any time.
   */
  lemma StepsGoOnExactly(steps: seq<Step>, t: TaskId, id: SessionId, url: Url)
    requires Exec(steps).Some?
    ensures var m := Exec(steps).value;
            && (Enabled(m, CreateNew(t, id, url)) <==> Inserting(steps, t).None? && MadeWith(steps, id).None?)
            && (Enabled(m, CreateInsert(t)) <==> Inserting(steps, t).Some?)
            && (Enabled(m, CreateDropped(t)) <==> Inserting(steps, t).Some?)
            && (Enabled(m, Close(id)) <==> Returned(steps, id)) && Enabled(m, StopManager)
            && (Enabled(m, CleanUp(id)) <==>
                MadeWith(steps, id).Some? && Cancelled(steps, id) && !CleanedUp(steps, id))
  {
    EverythingIsTold(steps);
    InvAlways(steps);
    var m := Exec(steps).value;
    assert Lookup(m.made, id) == MadeWith(steps, id);
    assert Inserting(steps, t) == if t in m.creating then Some(m.creating[t]) else None;
  }
}
