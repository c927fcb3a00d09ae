/**
 * What the locked sections of `start` and `stop` amount to. The owner field of a session's record behaves as an
 * atomic register as long as no unlocked delete falls inside a section, and even then no claim is ever stolen.
 */
module RaftRegister {
  import opened Prelude
  import opened RaftCluster

  // ---------------------------------------------------------------------------------------------------------
  // No claim is stolen.

  /** Step `e` puts back the record of `s` from inside a section. */
  predicate PutsBack(c: Cluster, e: Step, s: SessionId) {
    e.Put? && KnownSection(c, e.task) && MayPut(c.tasks[e.task]) && SessionOf(c, e.task) == s
  }

  /** The owner that step `e` puts into the record of `s`, if it puts one. */
  function Stores(c: Cluster, e: Step, s: SessionId): Option<Option<SubId>> {
    if PutsBack(c, e, s) then Some(PutBack(c.tasks[e.task]).main)
    else if e.CreatePut? && e.task in c.tasks && c.tasks[e.task].Create? && c.tasks[e.task].session == s then Some(None)
    else None
  }

  /** Step `e` is where a `start` on `s` learns the owner it then acts on. */
  function Decides(c: Cluster, e: Step, s: SessionId): Option<SubId> {
    if PutsBack(c, e, s) && c.tasks[e.task].Start? then PutBack(c.tasks[e.task]).main else None
  }

  /** Step `e` is a `stop` of `me` giving its claim up. */
  predicate Clears(c: Cluster, e: Step, me: SubId) {
    e.Put? && e.task in c.tasks && c.tasks[e.task].Stop? && c.tasks[e.task].me == me
  }

  lemma StoresIsWritten(c: Cluster, e: Step, s: SessionId)
    requires Enabled(c, e) && Stores(c, e, s).Some?
    ensures s in Perform(c, e).written && Perform(c, e).written[s] == Stores(c, e, s).value
  {
  }

  /** One step leaves a claim alone, unless it is the owner's own `stop`. */
  lemma ClaimStep(c: Cluster, e: Step, s: SessionId, owner: SubId)
    requires Inv(c) && Enabled(c, e) && s in c.written && c.written[s] == Some(owner)
    requires !Clears(c, e, owner)
    ensures s in Perform(c, e).written && Perform(c, e).written[s] == Some(owner)
    ensures Stores(c, e, s).Some? ==> Stores(c, e, s).value == Some(owner)
    ensures Decides(c, e, s).Some? ==> Decides(c, e, s).value == owner
  {
    if e.Put? || e.CreatePut? {
      assert TaskOk(c, e.task, c.tasks[e.task]);
    } else {
      OtherStepsWriteNothing(c, e);
    }
  }

  /** `owner` gives nothing up strictly between steps `i` and `j`. */
  ghost predicate Unrelinquished(run: Run, i: nat, j: nat, owner: SubId)
    requires IsRun(run) && j < |run.states|
  {
    forall k :: i < k < j ==> !Clears(run.states[k], run.steps[k], owner)
  }

  lemma {:induction false} ClaimStands(run: Run, i: nat, j: nat, s: SessionId, owner: SubId)
    requires IsRun(run) && i < j < |run.states| && Unrelinquished(run, i, j, owner)
    requires Stores(run.states[i], run.steps[i], s) == Some(Some(owner))
    ensures s in run.states[j].written && run.states[j].written[s] == Some(owner)
  {
    if j == i + 1 {
      StoredAt(run, i, s);
    } else {
      ClaimStands(run, i, j - 1, s, owner);
      StandsAt(run, j - 1, s, owner);
    }
  }

  lemma StoredAt(run: Run, i: nat, s: SessionId)
    requires IsRun(run) && i < |run.steps| && Stores(run.states[i], run.steps[i], s).Some?
    ensures s in run.states[i + 1].written
    ensures run.states[i + 1].written[s] == Stores(run.states[i], run.steps[i], s).value
  {
    assert Follows(run, i);
    StoresIsWritten(run.states[i], run.steps[i], s);
  }

  lemma StandsAt(run: Run, i: nat, s: SessionId, owner: SubId)
    requires IsRun(run) && i < |run.steps| && !Clears(run.states[i], run.steps[i], owner)
    requires s in run.states[i].written && run.states[i].written[s] == Some(owner)
    ensures s in run.states[i + 1].written && run.states[i + 1].written[s] == Some(owner)
    ensures Stores(run.states[i], run.steps[i], s).Some? ==>
              Stores(run.states[i], run.steps[i], s).value == Some(owner)
    ensures Decides(run.states[i], run.steps[i], s).Some? ==> Decides(run.states[i], run.steps[i], s).value == owner
  {
    assert Follows(run, i);
    InvAlways(run, i);
    ClaimStep(run.states[i], run.steps[i], s, owner);
  }

  /**
   * From the step that puts `owner` into the record until `owner`'s own `stop` clears it, no other owner is written,
   * every record found carries `owner` and every `start` decides on `owner` - even when `close` deletes the record
   * inside somebody's section and that section puts it back.
   */
  lemma NoClaimIsStolen(run: Run, i: nat, j: nat, s: SessionId, owner: SubId)
    requires IsRun(run) && i < j < |run.steps| && Unrelinquished(run, i, j, owner)
    requires Stores(run.states[i], run.steps[i], s) == Some(Some(owner))
    ensures s in run.states[j].kv ==> run.states[j].kv[s].main == Some(owner)
    ensures Stores(run.states[j], run.steps[j], s).Some? ==>
              || Stores(run.states[j], run.steps[j], s).value == Some(owner)
              || Clears(run.states[j], run.steps[j], owner)
    ensures Decides(run.states[j], run.steps[j], s).Some? ==> Decides(run.states[j], run.steps[j], s).value == owner
  {
    ClaimStands(run, i, j, s, owner);
    InvAlways(run, j);
    if !Clears(run.states[j], run.steps[j], owner) {
      StandsAt(run, j, s, owner);
    }
  }

  /** At step `i` a `start` of `me` came out as the owner, and `me` has not given the claim up before state `j`. */
  ghost predicate HoldsClaim(run: Run, i: nat, j: nat, s: SessionId, me: SubId)
    requires IsRun(run) && j < |run.states|
  {
    && i < j
    && Decides(run.states[i], run.steps[i], s) == Some(me) && run.states[i].tasks[run.steps[i].task].me == me
    && Unrelinquished(run, i, j, me)
  }

  /** Two unrelinquished claims on one session belong to one session object. */
  lemma ClaimIsUnique(run: Run, i: nat, i': nat, j: nat, s: SessionId, me: SubId, other: SubId)
    requires IsRun(run) && j < |run.states|
    requires HoldsClaim(run, i, j, s, me) && HoldsClaim(run, i', j, s, other)
    ensures me == other
  {
    ClaimStands(run, i, j, s, me);
    ClaimStands(run, i', j, s, other);
  }

  /** Until the owner that one `start` decided on gives up, every later `start` of the session decides on it too. */
  lemma DecisionsAgree(run: Run, i: nat, j: nat, s: SessionId, owner: SubId)
    requires IsRun(run) && i <= j < |run.steps| && Decides(run.states[i], run.steps[i], s) == Some(owner)
    requires Unrelinquished(run, i, j, owner) && Decides(run.states[j], run.steps[j], s).Some?
    ensures Decides(run.states[j], run.steps[j], s) == Some(owner)
  {
    if i < j {
      NoClaimIsStolen(run, i, j, s, owner);
    }
  }

  // ---------------------------------------------------------------------------------------------------------
  // Refinement of an atomic register.

  /** The owner field of one session as one atomic object; `Absent` before `create` and after `close`. */
  datatype Register = Absent | Holding(owner: Option<SubId>)

  datatype Reply = Closed | Owner(owner: SubId) | Stopped

  datatype Operation =
    | AtomicStart(me: SubId, reply: Reply)
    | AtomicStop(me: SubId, reply: Reply)
    | AtomicCreate
    | AtomicClose
    | Nothing

  /** `start` is "if empty, become the owner; return the owner"; `stop` is "if I am the owner, clear". */
  predicate Atomic(before: Register, op: Operation, after: Register) {
    match op
    case AtomicStart(me, reply) =>
      (match before
       case Absent => after == Absent && reply == Closed
       case Holding(None) => after == Holding(Some(me)) && reply == Owner(me)
       case Holding(Some(owner)) => after == before && reply == Owner(owner))
    case AtomicStop(me, reply) =>
      (match before
       case Absent => after == Absent && reply == Closed
       case Holding(owner) => after == (if owner == Some(me) then Holding(None) else before) && reply == Stopped)
    case AtomicCreate => before == Absent && after == Holding(None)
    case AtomicClose => after == Absent
    case Nothing => after == before
  }

  function Abstract(c: Cluster, s: SessionId): Register {
    if s in c.kv then Holding(c.kv[s].main) else Absent
  }

  /**
   * Where each call takes effect: at its put if it puts, otherwise at its get. A `start` always puts; a `stop` puts
   * only when the record names it. The reply is what the task holds on to afterwards.
   */
  function Effect(c: Cluster, e: Step, s: SessionId): Operation {
    match e
    case GetNone(t) =>
      if !KnownSection(c, t) || SessionOf(c, t) != s then Nothing
      else if c.tasks[t].Start? then AtomicStart(c.tasks[t].me, Closed)
      else AtomicStop(c.tasks[t].me, Closed)
    case Get(t) =>
      if KnownSection(c, t) && SessionOf(c, t) == s && c.tasks[t].Stop?
         && s in c.kv && c.kv[s].main != Some(c.tasks[t].me)
      then AtomicStop(c.tasks[t].me, Stopped)
      else Nothing
    case Put(t) =>
      if !PutsBack(c, e, s) then Nothing
      else if c.tasks[t].Stop? then AtomicStop(c.tasks[t].me, Stopped)
      else AtomicStart(c.tasks[t].me, Owner(PutBack(c.tasks[t]).main.value))
    case CreatePut(t) =>
      if t in c.tasks && c.tasks[t].Create? && c.tasks[t].session == s then AtomicCreate else Nothing
    case CloseDelete(t) => if Deletes(c, e, s) then AtomicClose else Nothing
    case _ => Nothing
  }

  /** Step `e` is the unlocked delete of the record of `s`. */
  predicate Deletes(c: Cluster, e: Step, s: SessionId) {
    && e.CloseDelete? && e.task in c.tasks && c.tasks[e.task].Close? && c.tasks[e.task].me in c.replicas
    && c.replicas[c.tasks[e.task].me].session == s
  }

  /** Step `e` puts back a record of `s` that was deleted since it was read. */
  predicate Resurrects(c: Cluster, e: Step, s: SessionId) {
    PutsBack(c, e, s) && s !in c.kv
  }

  /** A call that leaves the record alone still learns something, and what it learns is true of the register. */
  lemma QuietEffect(c: Cluster, e: Step, s: SessionId)
    requires Enabled(c, e) && !e.Put? && !e.CreatePut? && !e.CloseDelete?
    ensures Atomic(Abstract(c, s), Effect(c, e, s), Abstract(c, s))
  {
  }

  lemma PutRefines(c: Cluster, t: TaskId, s: SessionId)
    requires Inv(c) && Enabled(c, Put(t))
    ensures Atomic(Abstract(c, s), Effect(c, Put(t), s), Abstract(Perform(c, Put(t)), s)) <==> !Resurrects(c, Put(t), s)
  {
  }

  lemma FirstPutRefines(c: Cluster, t: TaskId, s: SessionId)
    requires Inv(c) && Enabled(c, CreatePut(t))
    ensures Atomic(Abstract(c, s), Effect(c, CreatePut(t), s), Abstract(Perform(c, CreatePut(t)), s))
  {
    assert TaskOk(c, t, c.tasks[t]);
  }

  lemma DeleteRefines(c: Cluster, t: TaskId, s: SessionId)
    requires Enabled(c, CloseDelete(t))
    ensures Atomic(Abstract(c, s), Effect(c, CloseDelete(t), s), Abstract(Perform(c, CloseDelete(t)), s))
  {
  }

  /** A step is a step of the atomic register exactly when it does not put back a deleted record. */
  lemma StepRefines(c: Cluster, e: Step, s: SessionId)
    requires Inv(c) && Enabled(c, e)
    ensures Atomic(Abstract(c, s), Effect(c, e, s), Abstract(Perform(c, e), s)) <==> !Resurrects(c, e, s)
  {
    if e.Put? {
      PutRefines(c, e.task, s);
    } else if e.CreatePut? {
      FirstPutRefines(c, e.task, s);
    } else if e.CloseDelete? {
      DeleteRefines(c, e.task, s);
    } else {
      OtherStepsWriteNothing(c, e);
      QuietEffect(c, e, s);
    }
  }

  /** A `start` can release right after its put, and then holds on to the register's reply. */
  lemma ReleaseKeepsReply(c: Cluster, e: Step)
    requires Enabled(c, e) && e.Put? && c.tasks[e.task].Start?
    ensures var owner := Effect(c, e, SessionOf(c, e.task)).reply.owner;
            var after := Perform(c, e);
            && after.tasks[e.task] == Start(c.tasks[e.task].me, Wrote(Some(owner)))
            && Enabled(after, Release(e.task))
            && Perform(after, Release(e.task)).tasks[e.task].at == Released(Some(owner))
  {
  }

  /** Task `t` is a `start` of `me` that has put `owner` back, and perhaps released the lock since. */
  predicate Carries(c: Cluster, t: TaskId, me: SubId, owner: Option<SubId>) {
    t in c.tasks && c.tasks[t] in {Start(me, Wrote(owner)), Start(me, Released(owner))}
  }

  lemma CarriesSectionStep(c: Cluster, e: Step, t: TaskId, me: SubId, owner: Option<SubId>)
    requires Enabled(c, e) && IsSectionStep(e) && e.task == t && !e.Put? && Carries(Perform(c, e), t, me, owner)
    ensures Carries(c, t, me, owner)
  {
  }

  /** Only a step of a `start` or `stop` leaves its task one. */
  lemma SectionsAreTheirOwn(c: Cluster, e: Step)
    requires Enabled(c, e) && !IsEvent(e) && e.task in Perform(c, e).tasks && IsSection(Perform(c, e).tasks[e.task])
    ensures IsSectionStep(e)
  {
    if IsLookup(e) {
      LookupFrame(c, e);
    } else if IsOther(e) {
      OtherFrame(c, e);
    }
  }

  lemma CarriesStep(c: Cluster, e: Step, t: TaskId, me: SubId, owner: Option<SubId>)
    requires Enabled(c, e) && e != Put(t) && Carries(Perform(c, e), t, me, owner)
    ensures Carries(c, t, me, owner)
  {
    if IsEvent(e) || e.task != t {
      OtherTaskStays(c, e, t);
    } else {
      SectionsAreTheirOwn(c, e);
      CarriesSectionStep(c, e, t, me, owner);
    }
  }

  /** At step `i` task `t`, a `start` of `me`, takes effect on `s` with the reply `owner`. */
  ghost predicate TakesEffect(run: Run, i: nat, t: TaskId, me: SubId, s: SessionId, owner: SubId)
    requires IsRun(run) && i < |run.steps|
  {
    && run.steps[i] == Put(t) && KnownSection(run.states[i], t) && run.states[i].tasks[t].me == me
    && Effect(run.states[i], run.steps[i], s) == AtomicStart(me, Owner(owner))
    && Decides(run.states[i], run.steps[i], s) == Some(owner)
  }

  /** Whatever happens in between, the owner that a `start` acts on is the register's reply to that same call. */
  lemma {:induction false} ReplyIsCarried(run: Run, j: nat, t: TaskId, me: SubId, owner: Option<SubId>) returns (i: nat)
    requires IsRun(run) && j < |run.states| && Carries(run.states[j], t, me, owner)
    ensures i < j && owner.Some? && me in run.states[j].replicas
    ensures TakesEffect(run, i, t, me, run.states[j].replicas[me].session, owner.value)
    ensures forall m :: i < m <= j ==> Carries(run.states[m], t, me, owner)
  {
    InvAlways(run, j);
    assert TaskOk(run.states[j], t, run.states[j].tasks[t]);
    i := j - 1;
    assert Follows(run, i);
    if run.steps[i] == Put(t) {
      ReplicaStep(run.states[i], run.steps[i], me);
    } else {
      CarriesStep(run.states[i], run.steps[i], t, me, owner);
      var last := i;
      i := ReplyIsCarried(run, last, t, me, owner);
      ReplicaStep(run.states[last], run.steps[last], me);
    }
  }

  /** Task `t` is a `start` of `me` that came out of its section as the owner of `s`. */
  predicate ActsAsOwner(c: Cluster, t: TaskId, me: SubId, s: SessionId) {
    Carries(c, t, me, Some(me)) && me in c.replicas && c.replicas[me].session == s
  }

  /** Two objects act as the owner of one session at once only if a `stop` of the first has cleared its claim. */
  lemma OverlapNeedsAStop(run: Run, j: nat, t: TaskId, u: TaskId, a: SubId, b: SubId, s: SessionId)
    returns (first: SubId, k: nat)
    requires IsRun(run) && j < |run.states| && a != b
    requires ActsAsOwner(run.states[j], t, a, s) && ActsAsOwner(run.states[j], u, b, s)
    ensures first in {a, b} && k < j && Clears(run.states[k], run.steps[k], first)
  {
    var i := ReplyIsCarried(run, j, t, a, Some(a));
    var i' := ReplyIsCarried(run, j, u, b, Some(b));
    if i <= i' {
      k := ClearedBetween(run, i, i', s, a, b);
      first := a;
    } else {
      k := ClearedBetween(run, i', i, s, b, a);
      first := b;
    }
  }

  lemma ClearedBetween(run: Run, i: nat, j: nat, s: SessionId, owner: SubId, other: SubId) returns (k: nat)
    requires IsRun(run) && i <= j < |run.steps| && owner != other
    requires Decides(run.states[i], run.steps[i], s) == Some(owner)
    requires Decides(run.states[j], run.steps[j], s) == Some(other)
    ensures i < k < j && Clears(run.states[k], run.steps[k], owner)
  {
    if Unrelinquished(run, i, j, owner) {
      DecisionsAgree(run, i, j, s, owner);
      k := i;
    } else {
      k :| i < k < j && Clears(run.states[k], run.steps[k], owner);
    }
  }

  /** All `start`s that act as the owner of `s` are of one object. */
  ghost predicate OneActs(c: Cluster, s: SessionId) {
    forall t, u, a, b :: ActsAsOwner(c, t, a, s) && ActsAsOwner(c, u, b, s) ==> a == b
  }

  /** Step `e` makes an object the acting owner of `s` while a `start` of another one acts as the owner. */
  ghost predicate Overtakes(c: Cluster, e: Step, s: SessionId) {
    && PutsBack(c, e, s) && Decides(c, e, s) == Some(c.tasks[e.task].me)
    && exists u, b :: ActsAsOwner(c, u, b, s) && b != c.tasks[e.task].me
  }

  /** Who acts as the owner did so before, or takes effect now. */
  lemma ActsSince(c: Cluster, e: Step, t: TaskId, me: SubId, s: SessionId)
    requires Inv(c) && Enabled(c, e) && ActsAsOwner(Perform(c, e), t, me, s)
    ensures ActsAsOwner(c, t, me, s) ||
            (e == Put(t) && PutsBack(c, e, s) && c.tasks[t].me == me && Decides(c, e, s) == Some(me))
  {
    if e == Put(t) {
      ReplicaStep(c, e, c.tasks[t].me);
    } else {
      CarriesStep(c, e, t, me, Some(me));
      assert TaskOk(c, t, c.tasks[t]);
      ReplicaStep(c, e, me);
    }
  }

  lemma ActsOn(c: Cluster, e: Step, t: TaskId, me: SubId, s: SessionId)
    requires Enabled(c, e) && e.Put? && e.task != t && ActsAsOwner(c, t, me, s)
    ensures ActsAsOwner(Perform(c, e), t, me, s)
  {
    OtherTaskStays(c, e, t);
    ReplicaStep(c, e, me);
  }

  lemma OvertakerActs(c: Cluster, e: Step, s: SessionId)
    requires Enabled(c, e) && Overtakes(c, e, s)
    ensures !OneActs(Perform(c, e), s)
  {
    var d, me := Perform(c, e), c.tasks[e.task].me;
    var u, b :| ActsAsOwner(c, u, b, s) && b != me;
    ActsOn(c, e, u, b, s);
    ReplicaStep(c, e, me);
    assert ActsAsOwner(d, e.task, me, s);
  }

  /** A step makes a second object act as the owner exactly when it is the put of a `start` that overtakes another. */
  lemma OneActsStep(c: Cluster, e: Step, s: SessionId)
    requires Inv(c) && Enabled(c, e) && OneActs(c, s)
    ensures OneActs(Perform(c, e), s) <==> !Overtakes(c, e, s)
  {
    if Overtakes(c, e, s) {
      OvertakerActs(c, e, s);
    } else {
      forall t, u, a, b | ActsAsOwner(Perform(c, e), t, a, s) && ActsAsOwner(Perform(c, e), u, b, s) ensures a == b {
        ActsSince(c, e, t, a, s);
        ActsSince(c, e, u, b, s);
      }
    }
  }

  lemma OneActsAfter(run: Run, s: SessionId, i: nat)
    requires IsRun(run) && i < |run.steps| && OneActs(run.states[i], s)
    ensures OneActs(run.states[i + 1], s) <==> !Overtakes(run.states[i], run.steps[i], s)
  {
    assert Follows(run, i);
    InvAlways(run, i);
    OneActsStep(run.states[i], run.steps[i], s);
  }

  lemma {:induction false} OneActsUntil(run: Run, s: SessionId, i: nat)
    requires IsRun(run) && i < |run.states|
    requires forall k :: 0 <= k < i ==> !Overtakes(run.states[k], run.steps[k], s)
    ensures OneActs(run.states[i], s)
  {
    if i == 0 {
      assert run.states[0].tasks == map[];
    } else {
      OneActsUntil(run, s, i - 1);
      OneActsAfter(run, s, i - 1);
    }
  }

  /** In every state of a run at most one object acts as the owner of `s`, exactly when no put overtakes another. */
  lemma OneActsExactly(run: Run, s: SessionId)
    requires IsRun(run)
    ensures (forall i :: 0 <= i < |run.states| ==> OneActs(run.states[i], s)) <==>
            (forall i :: 0 <= i < |run.steps| ==> !Overtakes(run.states[i], run.steps[i], s))
  {
    if forall i :: 0 <= i < |run.states| ==> OneActs(run.states[i], s) {
      forall i | 0 <= i < |run.steps| ensures !Overtakes(run.states[i], run.steps[i], s) {
        OneActsAfter(run, s, i);
      }
    } else if forall i :: 0 <= i < |run.steps| ==> !Overtakes(run.states[i], run.steps[i], s) {
      forall i | 0 <= i < |run.states| ensures OneActs(run.states[i], s) {
        OneActsUntil(run, s, i);
      }
    }
  }

  ghost predicate NeverResurrects(run: Run, s: SessionId)
    requires IsRun(run)
  {
    forall i :: 0 <= i < |run.steps| ==> !Resurrects(run.states[i], run.steps[i], s)
  }

  ghost predicate Refines(run: Run, s: SessionId, i: nat)
    requires IsRun(run) && i < |run.steps|
  {
    Atomic(Abstract(run.states[i], s), Effect(run.states[i], run.steps[i], s), Abstract(run.states[i + 1], s))
  }

  lemma RefinesAt(run: Run, s: SessionId, i: nat)
    requires IsRun(run) && i < |run.steps|
    ensures Refines(run, s, i) <==> !Resurrects(run.states[i], run.steps[i], s)
  {
    assert Follows(run, i);
    InvAlways(run, i);
    StepRefines(run.states[i], run.steps[i], s);
  }

  /** A whole run of any number of session objects is a run of the atomic register iff no put resurrects a record. */
  lemma RunRefines(run: Run, s: SessionId)
    requires IsRun(run)
    ensures (forall i :: 0 <= i < |run.steps| ==> Refines(run, s, i)) <==> NeverResurrects(run, s)
  {
    forall i | 0 <= i < |run.steps|
      ensures Refines(run, s, i) <==> !Resurrects(run.states[i], run.steps[i], s)
    {
      RefinesAt(run, s, i);
    }
  }

  // Labelled freely, a `stop` that resurrects the record looks like a `create`; a `start` looks like nothing at all.

  /** Some operation, of whatever call, takes the register from `before` to `after`. */
  ghost predicate IsOperation(before: Register, after: Register) {
    exists op :: Atomic(before, op, after)
  }

  ghost predicate IsSomeOperation(c: Cluster, e: Step, s: SessionId)
    requires Enabled(c, e)
  {
    IsOperation(Abstract(c, s), Abstract(Perform(c, e), s))
  }

  /** Step `e` is a `start` that puts back a deleted record. */
  predicate ResurrectsAClaim(c: Cluster, e: Step, s: SessionId) {
    Resurrects(c, e, s) && c.tasks[e.task].Start?
  }

  lemma StepIsSomeOperation(c: Cluster, e: Step, s: SessionId)
    requires Inv(c) && Enabled(c, e)
    ensures IsSomeOperation(c, e, s) <==> !ResurrectsAClaim(c, e, s)
  {
    StepRefines(c, e, s);
    if Resurrects(c, e, s) {
      ResurrectingStep(c, e.task, s);
    } else {
      assert Atomic(Abstract(c, s), Effect(c, e, s), Abstract(Perform(c, e), s));
    }
  }

  lemma ResurrectingStep(c: Cluster, t: TaskId, s: SessionId)
    requires Enabled(c, Put(t)) && Resurrects(c, Put(t), s)
    ensures IsSomeOperation(c, Put(t), s) <==> c.tasks[t].Stop?
  {
    if c.tasks[t].Stop? {
      assert Atomic(Abstract(c, s), AtomicCreate, Abstract(Perform(c, Put(t)), s));
    }
  }

  ghost predicate IsSomeOperationAt(run: Run, s: SessionId, i: nat)
    requires IsRun(run) && i < |run.steps|
  {
    IsOperation(Abstract(run.states[i], s), Abstract(run.states[i + 1], s))
  }

  /** Whatever labels are chosen, a run is a run of the register iff no `start` puts back a deleted record. */
  lemma RunIsSomeRegisterRun(run: Run, s: SessionId)
    requires IsRun(run)
    ensures (forall i :: 0 <= i < |run.steps| ==> IsSomeOperationAt(run, s, i)) <==>
            (forall i :: 0 <= i < |run.steps| ==> !ResurrectsAClaim(run.states[i], run.steps[i], s))
  {
    forall i | 0 <= i < |run.steps|
      ensures IsSomeOperationAt(run, s, i) <==> !ResurrectsAClaim(run.states[i], run.steps[i], s)
    {
      assert Follows(run, i);
      InvAlways(run, i);
      StepIsSomeOperation(run.states[i], run.steps[i], s);
    }
  }

  /** Some call on `s` has read its record and not yet written it back. */
  ghost predicate InsideSection(c: Cluster, s: SessionId) {
    exists t :: KnownSection(c, t) && c.tasks[t].at.Read? && SessionOf(c, t) == s
  }

  ghost predicate NoCloseInsideSection(run: Run, s: SessionId)
    requires IsRun(run)
  {
    forall i :: 0 <= i < |run.steps| && Deletes(run.states[i], run.steps[i], s) ==> !InsideSection(run.states[i], s)
  }

  /** A call inside a section after a step was inside before, or got there by reading the record. */
  lemma EnteringSection(c: Cluster, e: Step, t: TaskId)
    requires Inv(c) && Enabled(c, e)
    requires KnownSection(Perform(c, e), t) && Perform(c, e).tasks[t].at.Read?
    ensures KnownSection(c, t) && SessionOf(c, t) == SessionOf(Perform(c, e), t)
    ensures !c.tasks[t].at.Read? ==> e == Get(t) && SessionOf(c, t) in c.kv
  {
    if IsEvent(e) || e.task != t {
      OtherTaskStays(c, e, t);
    } else if !e.Get? && (t in c.tasks && IsSection(c.tasks[t]) ==> !c.tasks[t].at.Read?) {
      OnlyGetReads(c, e, t);
    }
    assert TaskOk(c, t, c.tasks[t]);
    ReplicaStep(c, e, c.tasks[t].me);
  }

  lemma SectionStep(c: Cluster, e: Step, s: SessionId)
    requires Inv(c) && Enabled(c, e)
    requires InsideSection(c, s) ==> s in c.kv
    requires Deletes(c, e, s) ==> !InsideSection(c, s)
    ensures InsideSection(Perform(c, e), s) ==> s in Perform(c, e).kv
  {
    var d := Perform(c, e);
    if InsideSection(d, s) {
      var t :| KnownSection(d, t) && d.tasks[t].at.Read? && SessionOf(d, t) == s;
      EnteringSection(c, e, t);
      if !e.Put? && !e.CreatePut? && !e.CloseDelete? {
        OtherStepsWriteNothing(c, e);
      }
    }
  }

  lemma SectionAt(run: Run, s: SessionId, i: nat)
    requires IsRun(run) && i < |run.steps| && NoCloseInsideSection(run, s)
    requires InsideSection(run.states[i], s) ==> s in run.states[i].kv
    ensures InsideSection(run.states[i + 1], s) ==> s in run.states[i + 1].kv
  {
    assert Follows(run, i);
    InvAlways(run, i);
    SectionStep(run.states[i], run.steps[i], s);
  }

  lemma {:induction false} SectionsSeeTheRecord(run: Run, s: SessionId, i: nat)
    requires IsRun(run) && i < |run.states| && NoCloseInsideSection(run, s)
    ensures InsideSection(run.states[i], s) ==> s in run.states[i].kv
  {
    if i > 0 {
      SectionsSeeTheRecord(run, s, i - 1);
      SectionAt(run, s, i - 1);
    }
  }

  /** In particular a run refines the register when no unlocked `close` falls between somebody's get and put. */
  lemma RefinesWithoutRacingClose(run: Run, s: SessionId)
    requires IsRun(run) && NoCloseInsideSection(run, s)
    ensures forall i :: 0 <= i < |run.steps| ==> Refines(run, s, i)
  {
    forall i | 0 <= i < |run.steps|
      ensures Refines(run, s, i)
    {
      SectionsSeeTheRecord(run, s, i);
      RefinesAt(run, s, i);
    }
  }
}
