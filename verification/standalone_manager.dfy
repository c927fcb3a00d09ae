/** The session map of the standalone manager against the tasks that clean it up when a token is cancelled. */
module StandaloneManager {
  import opened Prelude

  datatype SessionId = SessionId(uuid: nat)
  datatype Url = Url(text: nat)
  type TaskId = nat

  function Lookup(sessions: map<SessionId, Url>, id: SessionId): Option<Url> {
    if id in sessions then Some(sessions[id]) else None
  }

  /**
   * `waiting` are the cleanup tasks that have not run; `creating` are the calls of `create` that still wait for the
   * write lock. `made`, `returned` and `late` are history: the ids ever drawn with their urls, the ids whose `create`
   * has returned, and those that were inserted after their cleanup had run.
   */
  datatype Manager = Manager(
    sessions: map<SessionId, Url>,
    stopped: bool,
    closed: set<SessionId>,
    waiting: set<SessionId>,
    creating: map<TaskId, SessionId>,
    made: map<SessionId, Url>,
    returned: set<SessionId>,
    late: set<SessionId>)

  datatype Step =
    | CreateNew(t: TaskId, id: SessionId, url: Url)
    | CreateInsert(t: TaskId)
    | CreateDropped(t: TaskId)
    | Close(id: SessionId)
    | StopManager
    | CleanUp(id: SessionId)

  /** A session's token is a child of the manager's. */
  predicate IsCancelled(m: Manager, id: SessionId) {
    m.stopped || id in m.closed
  }

  predicate Enabled(m: Manager, e: Step) {
    match e
    case CreateNew(t, id, _) => t !in m.creating && id !in m.made
    case CreateInsert(t) => t in m.creating && m.creating[t] in m.made
    case CreateDropped(t) => t in m.creating
    case Close(id) => id in m.returned
    case StopManager => true
    case CleanUp(id) => id in m.waiting && IsCancelled(m, id)
  }

  function Perform(m: Manager, e: Step): Manager
    requires Enabled(m, e)
  {
    match e
    case CreateNew(t, id, url) =>
      m.(waiting := m.waiting + {id}, creating := m.creating[t := id], made := m.made[id := url])
    case CreateInsert(t) =>
      var id := m.creating[t];
      m.(sessions := m.sessions[id := m.made[id]], creating := m.creating - {t}, returned := m.returned + {id},
         late := if id in m.waiting then m.late else m.late + {id})
    case CreateDropped(t) => m.(creating := m.creating - {t})
    case Close(id) => m.(closed := m.closed + {id})
    case StopManager => m.(stopped := true)
    case CleanUp(id) => m.(sessions := m.sessions - {id}, waiting := m.waiting - {id})
  }

  function Exec(steps: seq<Step>): Option<Manager> {
    if steps == [] then Some(Manager(map[], false, {}, {}, map[], map[], {}, {}))
    else
      match Exec(steps[..|steps| - 1])
      case None => None
      case Some(m) => if Enabled(m, steps[|steps| - 1]) then Some(Perform(m, steps[|steps| - 1])) else None
  }

  ghost predicate Inv(m: Manager) {
    && m.closed <= m.returned <= m.made.Keys && m.waiting <= m.made.Keys
    && (forall t :: t in m.creating ==> m.creating[t] in m.made && m.creating[t] !in m.returned)
    && (forall t, u :: t in m.creating && u in m.creating && m.creating[t] == m.creating[u] ==> t == u)
    && (forall id :: id in m.made && id !in m.waiting ==> IsCancelled(m, id))
    && (forall id :: id in m.sessions <==> id in m.returned && (id in m.waiting || id in m.late))
    && (forall id :: id in m.sessions ==> m.sessions[id] == m.made[id])
    && (forall id :: id in m.late ==> m.stopped && id !in m.waiting && id in m.returned)
  }

  lemma InvStep(m: Manager, e: Step)
    requires Inv(m) && Enabled(m, e)
    ensures Inv(Perform(m, e))
  {
  }

  lemma {:induction false} InvAlways(steps: seq<Step>)
    requires Exec(steps).Some?
    ensures Inv(Exec(steps).value)
  {
    if steps != [] {
      InvAlways(steps[..|steps| - 1]);
      InvStep(Exec(steps[..|steps| - 1]).value, steps[|steps| - 1]);
    }
  }

  // ---------------------------------------------------------------------------------------------------------
  // The object behind the manager's lock. Each method is what one task does while it has the lock.

  class SessionMap {
    var sessions: map<SessionId, Url>
    /** The whole manager, with the tasks and tokens that the map does not show. */
    ghost var machine: Manager

    ghost predicate Valid()
      reads this
    {
      Inv(machine) && sessions == machine.sessions
    }

    constructor ()
      ensures Valid() && Exec([]) == Some(machine)
    {
      sessions := map[];
      machine := Manager(map[], false, {}, {}, map[], map[], {}, {});
    }

    /** The end of `create` number `t`. */
    method Insert(ghost t: TaskId, id: SessionId, url: Url)
      requires Valid() && Enabled(machine, CreateInsert(t)) && machine.creating[t] == id && machine.made[id] == url
      modifies this
      ensures Valid() && machine == Perform(old(machine), CreateInsert(t))
    {
      InvStep(machine, CreateInsert(t));
      sessions := sessions[id := url];
      machine := Perform(machine, CreateInsert(t));
    }

    /** The cleanup task of session `id`, once its token is cancelled. */
    method CleanUp(id: SessionId)
      requires Valid() && Enabled(machine, Step.CleanUp(id))
      modifies this
      ensures Valid() && machine == Perform(old(machine), Step.CleanUp(id))
    {
      InvStep(machine, Step.CleanUp(id));
      sessions := map k | k in sessions && k != id :: sessions[k];
      machine := Perform(machine, Step.CleanUp(id));
      assert sessions == machine.sessions;
    }

    /** What happens to tokens and calls without the lock leaves the map as it is. */
    ghost method Elsewhere(e: Step)
      requires Valid() && Enabled(machine, e) && !e.CreateInsert? && !e.CleanUp?
      modifies `machine
      ensures Valid() && machine == Perform(old(machine), e)
    {
      InvStep(machine, e);
      machine := Perform(machine, e);
    }

    /** The whole of `create`, if it gets the lock at once: the new session is found. */
    method Create(ghost t: TaskId, id: SessionId, url: Url)
      requires Valid() && Enabled(machine, CreateNew(t, id, url))
      modifies this
      ensures Valid()
      ensures machine == Perform(Perform(old(machine), CreateNew(t, id, url)), CreateInsert(t))
      ensures Lookup(sessions, id) == Some(url)
      ensures forall k :: k != id ==> Lookup(sessions, k) == Lookup(old(sessions), k)
    {
      Elsewhere(CreateNew(t, id, url));
      Insert(t, id, url);
    }

    /**
     * A session is found exactly if its `create` has returned and its cleanup has not run or ran before the insert;
     * what is found is the session that was made. An uncancelled one is always found.
     */
    method Find(id: SessionId) returns (found: Option<Url>)
      requires Valid()
      ensures found.Some? <==> id in machine.returned && (id in machine.waiting || id in machine.late)
      ensures found.Some? ==> id in machine.made && found.value == machine.made[id]
      ensures id in machine.returned && !IsCancelled(machine, id) ==> found.Some?
      ensures found.Some? && IsCancelled(machine, id) ==> id in machine.waiting || machine.stopped
    {
      found := if id in sessions then Some(sessions[id]) else None;
    }
  }

  // ---------------------------------------------------------------------------------------------------------
  // What the invariant says about finding.

  /**
   * Every id in the map has an uncancelled token or a cleanup still to come, except an id that was inserted after its
   * cleanup - which only happens when the manager was stopped while `create` waited for the lock.
   */
  lemma MapAgreesWithTokens(steps: seq<Step>, id: SessionId)
    requires Exec(steps).Some? && id in Exec(steps).value.sessions
    ensures var m := Exec(steps).value;
            && id in m.made && m.sessions[id] == m.made[id]
            && (!IsCancelled(m, id) || id in m.waiting || id in m.late)
            && (id in m.late ==> m.stopped && id !in m.waiting)
  {
    InvAlways(steps);
  }

  /** An insert comes late exactly when the cleanup has already run, and then the manager had been stopped before. */
  lemma LateInsert(steps: seq<Step>, t: TaskId)
    requires Exec(steps).Some? && Enabled(Exec(steps).value, CreateInsert(t))
    ensures var m := Exec(steps).value;
            var id := m.creating[t];
            && (id in Perform(m, CreateInsert(t)).late <==> id !in m.waiting)
            && (id !in m.waiting ==> m.stopped)
  {
    InvAlways(steps);
  }

  /** A session whose `create` has returned is found as long as its token is uncancelled. */
  lemma {:induction false} UncancelledIsFound(steps: seq<Step>, id: SessionId)
    requires Exec(steps).Some? && id in Exec(steps).value.returned && !IsCancelled(Exec(steps).value, id)
    ensures id in Exec(steps).value.made
    ensures Lookup(Exec(steps).value.sessions, id) == Some(Exec(steps).value.made[id])
  {
    InvAlways(steps);
  }

  /** Cleaned up after its `create` had returned. */
  predicate Gone(m: Manager, id: SessionId) {
    id in m.returned && id !in m.waiting && id !in m.late
  }

  lemma GoneStep(m: Manager, e: Step, id: SessionId)
    requires Inv(m) && Enabled(m, e) && Gone(m, id)
    ensures Gone(Perform(m, e), id)
  {
  }

  lemma {:induction false} GoneStays(steps: seq<Step>, i: nat, id: SessionId)
    requires i <= |steps| && Exec(steps[..i]).Some? && Exec(steps).Some? && Gone(Exec(steps[..i]).value, id)
    ensures Gone(Exec(steps).value, id)
    decreases |steps|
  {
    if i == |steps| {
      assert steps[..i] == steps;
    } else {
      var shorter := steps[..|steps| - 1];
      assert shorter[..i] == steps[..i];
      GoneStays(shorter, i, id);
      InvAlways(shorter);
      GoneStep(Exec(shorter).value, steps[|steps| - 1], id);
    }
  }

  /** Once the cleanup has removed a session that `create` had returned, no later `find` returns it. */
  lemma CleanedUpIsNeverFound(before: seq<Step>, id: SessionId, after: seq<Step>)
    requires Exec(before).Some? && Enabled(Exec(before).value, CleanUp(id)) && id in Exec(before).value.returned
    requires Exec(before + [CleanUp(id)] + after).Some?
    ensures Lookup(Exec(before + [CleanUp(id)] + after).value.sessions, id) == None
  {
    var steps, i := before + [CleanUp(id)] + after, |before| + 1;
    assert steps[..i] == before + [CleanUp(id)] && steps[..i][..|before|] == before;
    InvAlways(before);
    GoneStays(steps, i, id);
    InvAlways(steps);
  }

  /** The exception: the manager is stopped while `create` waits, the cleanup finds nothing, and the entry stays. */
  lemma LateEntryStays(id: SessionId, url: Url) returns (steps: seq<Step>)
    ensures Exec(steps).Some?
    ensures var m := Exec(steps).value;
            id in m.sessions && IsCancelled(m, id) && m.waiting == {} && m.creating == map[]
  {
    steps := [CreateNew(0, id, url), StopManager, CleanUp(id), CreateInsert(0)];
    var m1 := Perform(Exec([]).value, CreateNew(0, id, url));
    assert steps[..3][..2][..1] == [CreateNew(0, id, url)] && [CreateNew(0, id, url)][..0] == [];
    assert Exec(steps[..3][..2][..1]) == Some(m1);
    var m2 := Perform(m1, StopManager);
    assert Exec(steps[..3][..2]) == Some(m2);
    var m3 := Perform(m2, CleanUp(id));
    assert Exec(steps[..3]) == Some(m3);
  }
}
