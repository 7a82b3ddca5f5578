/**
  Reloads of the collector service: planning against what is registered, reconciling, and
  publishing a snapshot that says whether the runtime may have diverged from it.
*/
module Reloading {
  import opened Basics
  import opened Collectors
  import opened Reconcile
  import opened Executions

  /** The runtime and the published snapshot. */
  datatype World = World(slots: Slots, closed: bool, config: seq<Collector>, diverged: bool)

  /** How a reload ends; one that got as far as a plan says which. */
  datatype Answer = Busy | Invalid | Ended(plan: Diff, outcome: Outcome)

  /** What is registered and does not run. */
  function Stale(s: Slots): set<Id> {
    Registered(s).Keys - Running(s).Keys
  }

  /** A health check says of a registered collector alone that it is to be restarted. */
  predicate NeedsRestart(s: Slots, id: Id) {
    id in s && s[id].stage != Live(true)
  }

  /**
    A plan from what is registered to the candidate.  Between the reading of what is registered
    and the checks of its health pollers exit: what the plan leaves alone was live, or stopping,
    and then it was registered no more when it was checked.
  */
  ghost predicate PlanFor(d: Diff, s: Slots, target: Table) {
    && IsPlan(d, Registered(s), target)
    && forall id | id in d.same :: id in s && (s[id].stage.Live? || s[id].stage == Stuck(true))
  }

  /** The slots as the health checks of such a plan may have found them. */
  function AsRead(d: Diff, s: Slots): Slots {
    map id | id in s && (id in d.same ==> s[id].stage.Live?) ::
      if s[id].stage.Live? then s[id].(stage := Live(id in d.same)) else s[id]
  }

  /** The checks of just these slots make just this plan. */
  lemma {:induction false} PlanIsRead(d: Diff, s: Slots, target: Table)
    requires PlanFor(d, s, target)
    ensures Drifted(s, AsRead(d, s)) && Faces(d, target, AsRead(d, s))
    ensures forall id | id in s && id in target && s[id].collector == target[id] ::
      id in d.same <==> !NeedsRestart(AsRead(d, s), id)
    ensures Missed(d, AsRead(d, s)) == Missed(d, s)
  {
    assert d.previous == Registered(s);
    forall id | id in d.same ensures Runs(AsRead(d, s), id) == Runs(s, id) {}
  }

  /** What is registered is keyed and wanted, and nothing is live after a shutdown. */
  ghost predicate Sound(kinds: set<Kind>, w: World) {
    Kept(w.slots, kinds) && (w.closed ==> NoneLive(w.slots))
  }

  /**
    One reload, from the state in which what is registered was read.  A shutdown may come while
    it is under way; unless one does, a reload that applies runs the candidate but for what its
    plan missed, and a phase only fails where there was something to wait for.
  */
  ghost predicate ReloadStep(kinds: set<Kind>, w: World, candidate: Option<seq<Collector>>, a: Answer, v: World) {
    && Sound(kinds, v) && (w.closed ==> v.closed)
    && match a
       case Busy => v == w
       case Invalid => candidate.None? && v == w
       case Ended(d, Applied) =>
         && candidate.Some? && v.config == candidate.value && !v.diverged
         && IsPlan(d, Registered(w.slots), Desired(candidate.value, kinds))
         && (!v.closed ==> AppliedBy(d, w.slots, v.slots, Desired(candidate.value, kinds)))
       case Ended(d, Failed(forward, rollback)) =>
         && candidate.Some? && v.config == w.config && v.diverged == (w.diverged || rollback != [])
         && IsPlan(d, Registered(w.slots), Desired(candidate.value, kinds))
         && forward != [] && FailedIn(d, forward, a.outcome.Phase())
         && (!v.closed ==>
               PlanFor(d, w.slots, Desired(candidate.value, kinds)) && Fallible(d, a.outcome.Phase(), w.slots))
         && (!v.closed && rollback == [] ==> UndoneBy(d, a.outcome.Phase(), w.slots, v.slots))
  }

  /** Exactly the target runs but for what the plan missed, which is not even registered. */
  ghost predicate AppliedBy(d: Diff, s: Slots, t: Slots, target: Table) {
    PlanFor(d, s, target) && Running(t) == target - Missed(d, s) && t.Keys !! Missed(d, s)
  }

  /** The touched IDs run what the plan holds as previous, the others what they ran, and nothing else is registered. */
  ghost predicate UndoneBy(d: Diff, phase: nat, s: Slots, t: Slots) {
    Restored(d, phase, s, t) && t.Keys <= s.Keys
  }

  class Service {
    const kinds: set<Kind>
    const lifecycle: Lifecycle
    var config: seq<Collector>
    var diverged: bool

    ghost function State(): World
      reads this, lifecycle
    {
      World(lifecycle.slots, lifecycle.closed, config, diverged)
    }

    /** The service at its start, with the snapshot loaded and nothing running. */
    constructor (config: seq<Collector>, kinds: set<Kind>)
      ensures State() == World(map[], false, config, false) && this.kinds == kinds && fresh(lifecycle)
    {
      var l := new Lifecycle();
      this.config, this.diverged, this.kinds, this.lifecycle := config, false, kinds, l;
    }

    /** Starts every enabled collector of the snapshot; the service only serves when that succeeds. */
    method InitialReconcile() returns (ok: bool)
      requires lifecycle.slots == map[] && lifecycle.Valid()
      modifies lifecycle
      ensures config == old(config) && diverged == old(diverged) && Sound(kinds, State())
      ensures ok && !lifecycle.closed ==> Running(lifecycle.slots) == Desired(config, kinds)
    {
      var diff := DiffCollectors([], config, kinds);
      DesiredWellKeyed(config, kinds);
      var r := lifecycle.ReconcileWithRollback(diff, Desired(config, kinds), kinds);
      ok := r.Applied?;
    }

    /** The configurations of every registered collector. */
    method Configs() returns (cs: seq<Collector>)
      requires Kept(lifecycle.slots, kinds)
      ensures Desired(cs, kinds) == Registered(lifecycle.slots)
    {
      cs := [];
      var left := lifecycle.slots.Keys;
      while left != {}
        invariant left <= lifecycle.slots.Keys
        invariant Desired(cs, kinds) == map id | id in lifecycle.slots && id !in left :: lifecycle.slots[id].collector
      {
        var id :| id in left;
        var c := lifecycle.slots[id].collector;
        assert (cs + [c])[..|cs|] == cs;
        cs, left := cs + [c], left - {id};
      }
    }

    /** The plan to get to the candidate: unchanged collectors that are found not to run well are restarted. */
    method PlanReload(next: seq<Collector>) returns (d: Diff)
      requires lifecycle.Valid() && Kept(lifecycle.slots, kinds)
      modifies lifecycle
      ensures lifecycle.Valid() && Kept(lifecycle.slots, kinds) && (old(lifecycle.closed) ==> lifecycle.closed)
      ensures IsPlan(d, Registered(old(lifecycle.slots)), Desired(next, kinds))
      ensures !lifecycle.closed ==> Drifted(old(lifecycle.slots), lifecycle.slots)
      ensures !lifecycle.closed ==> PlanFor(d, old(lifecycle.slots), Desired(next, kinds))
      ensures !lifecycle.closed ==> Checked(d.same, lifecycle.slots)
    {
      var running := Configs();
      d := DiffCollectors(running, next, kinds);
      var nextById := CollectorsById(next, kinds);
      DesiredWellKeyed(next, kinds);
      d := RestartUnhealthy(d, nextById);
      if !lifecycle.closed { SameRead(d, old(lifecycle.slots), lifecycle.slots, Desired(next, kinds)); }
    }

    /** Checks the health of one collector after another; pollers go on exiting. */
    method RestartUnhealthy(diff: Diff, nextById: Table) returns (d: Diff)
      requires lifecycle.Valid() && Kept(lifecycle.slots, kinds)
      requires IsPlan(diff, diff.previous, nextById) && WellKeyed(nextById, kinds)
      modifies lifecycle
      ensures lifecycle.Valid() && Kept(lifecycle.slots, kinds) && (old(lifecycle.closed) ==> lifecycle.closed)
      ensures IsPlan(d, diff.previous, nextById)
      ensures !lifecycle.closed ==> Drifted(old(lifecycle.slots), lifecycle.slots) && Checked(d.same, lifecycle.slots)
    {
      var same: seq<Id> := [];
      d := diff;
      assert Drifted(lifecycle.slots, lifecycle.slots);
      for i := 0 to |diff.same|
        invariant d.same == same + diff.same[i..] && IsPlan(d, diff.previous, nextById)
        invariant lifecycle.Valid() && Kept(lifecycle.slots, kinds) && (old(lifecycle.closed) ==> lifecycle.closed)
        invariant !lifecycle.closed ==> Drifted(old(lifecycle.slots), lifecycle.slots) && Checked(same, lifecycle.slots)
      {
        var id := diff.same[i];
        Split(same, diff.same, i);
        assert id in d.same;
        ghost var before := lifecycle.slots;
        lifecycle.Drift(kinds);
        if !lifecycle.closed { DriftedTwice(old(lifecycle.slots), before, lifecycle.slots); }
        if NeedsRestart(lifecycle.slots, id) {
          Restarted(d, same, id, diff.same[i + 1..], diff.previous, nextById);
          d := d.(updated := d.updated + [nextById[id]], same := same + diff.same[i + 1..]);
        } else {
          same := same + [id];
        }
      }
      assert d.same == same;
    }

    /**
      A reload to the configuration on disk, if it is valid; it may find another in progress.
      The snapshot changes only when the reconciliation succeeds.
    */
    method Reload(candidate: Option<seq<Collector>>) returns (a: Answer)
      requires Sound(kinds, State())
      modifies this, lifecycle
      ensures ReloadStep(kinds, old(State()), candidate, a, State())
    {
      var busy: bool := *;
      if busy { return Busy; }
      if candidate.None? { return Invalid; }
      var next := candidate.value;
      var diff := PlanReload(next);
      ghost var planned := lifecycle.slots;
      DesiredWellKeyed(next, kinds);
      var outcome := lifecycle.ReconcileWithRollback(diff, Desired(next, kinds), kinds);
      if !lifecycle.closed {
        Reconciled(diff, old(lifecycle.slots), planned, lifecycle.slots, Desired(next, kinds), outcome);
      }
      if outcome.Applied? {
        config, diverged := next, false;
      } else if outcome.rollback != [] {
        diverged := true;
      }
      a := Ended(diff, outcome);
    }
  }

  /** What the plan leaves alone is live, if it is registered at all. */
  ghost predicate Checked(same: seq<Id>, t: Slots) {
    forall id | id in same && id in t :: t[id].stage.Live?
  }

  lemma {:induction false} SameRead(d: Diff, s: Slots, t: Slots, target: Table)
    requires IsPlan(d, Registered(s), target) && Drifted(s, t) && Checked(d.same, t)
    ensures PlanFor(d, s, target)
  {
    forall id | id in d.same ensures id in s && (s[id].stage.Live? || s[id].stage == Stuck(true)) {
      assert id in Registered(s);
    }
  }

  /** What a reconciliation from the checked slots ensures, it ensures from those the plan was read from. */
  lemma {:induction false} Reconciled(d: Diff, s: Slots, t: Slots, u: Slots, target: Table, r: Outcome)
    requires PlanFor(d, s, target) && Drifted(s, t) && Checked(d.same, t)
    requires Beside(Touched(d, if r.Applied? || r.forward == [] then 2 else r.Phase()), t, u)
    requires r.Applied? ==> Running(u) == target - Missed(d, t)
    requires r.Failed? ==> r.forward != [] && Fallible(d, r.Phase(), t)
    requires r.RolledBack() ==> Restored(d, r.Phase(), t, u) && u.Keys <= t.Keys + d.previous.Keys
    ensures r.Applied? ==> AppliedBy(d, s, u, target)
    ensures r.Failed? ==> Fallible(d, r.Phase(), s)
    ensures r.RolledBack() ==> UndoneBy(d, r.Phase(), s, u)
  {
    forall id ensures Runs(t, id) == Runs(s, id) && (Inert(s, id) ==> Inert(t, id)) { DriftedRuns(s, t, id); }
    if r.Applied? {
      assert Missed(d, t) == Missed(d, s);
      forall id | id in Missed(d, s) ensures id !in u {
        assert id !in Touched(d, 2) && id !in t;
      }
    } else {
      var id :| id in InPhase(d, r.Phase()) && !Inert(t, id);
      assert !Inert(s, id);
    }
  }

  lemma {:induction false} Split(head: seq<Id>, ids: seq<Id>, i: nat)
    requires i < |ids|
    ensures head + ids[i..] == head + ([ids[i]] + ids[i + 1..])
    ensures head + ids[i..] == (head + [ids[i]]) + ids[i + 1..]
  {
  }

  /** Moving one collector of a plan from those left alone to those updated keeps it a plan. */
  lemma {:induction false} Restarted(d: Diff, head: seq<Id>, id: Id, tail: seq<Id>, prior: Table, target: Table)
    requires IsPlan(d, prior, target) && d.same == head + ([id] + tail) && id in target && target[id].id == id
    ensures IsPlan(d.(updated := d.updated + [target[id]], same := head + tail), prior, target)
  {
    IdsPush(d.updated, target[id]);
    assert id in d.same;
    forall x | x in head + tail ensures x in d.same {}
    assert forall x | x in d.same :: x == id || x in head + tail;
    forall k | 0 <= k < |head + tail| ensures (head + tail)[k] != id {
      assert d.same[|head|] == id;
      assert d.same[if k < |head| then k else k + 1] == (head + tail)[k];
    }
    assert Distinct(head + tail) by {
      forall i, j | 0 <= i < j < |head + tail| ensures (head + tail)[i] != (head + tail)[j] {
        var p, q := if i < |head| then i else i + 1, if j < |head| then j else j + 1;
        assert d.same[p] == (head + tail)[i] && d.same[q] == (head + tail)[j];
      }
    }
  }

  // ------------------------------------------------------------ what a rolled-back reload restores

  /** The stale registrations that a reload by the plan whose given phase failed has restarted. */
  function Revived(d: Diff, s: Slots, target: Table, phase: nat): set<Id> {
    if phase == 0 then {}
    else if phase == 1 then (Stale(s) - Named(d.same)) * target.Keys
    else Stale(s) - Named(d.same)
  }

  lemma {:induction false} RunningAt(s: Slots, t: Slots)
    ensures (forall id :: Runs(s, id) == Runs(t, id)) <==> Running(s) == Running(t)
  {
    if Running(s) == Running(t) {
      forall id ensures Runs(s, id) == Runs(t, id) {
        assert id in Running(s) <==> id in Running(t);
      }
    }
    if forall id :: Runs(s, id) == Runs(t, id) {
      forall id ensures id in Running(s) <==> id in Running(t) { assert Runs(s, id) == Runs(t, id); }
      forall id | id in Running(s) ensures Running(s)[id] == Running(t)[id] { assert Runs(s, id) == Runs(t, id); }
    }
  }

  lemma {:induction false} TouchedStale(d: Diff, s: Slots, target: Table, phase: nat)
    requires PlanFor(d, s, target) && phase <= 2
    ensures Touched(d, phase) * Stale(s) == Revived(d, s, target, phase)
  {
    forall id | id in Stale(s) ensures id in Ids(d.updated) + Named(d.removed) + Named(d.same) {
      assert id in Registered(s);
    }
    assert forall id | id in Stale(s) :: id in Registered(s) && id !in Ids(d.added);
  }

  /**
    What runs after a rolled-back reload: all that ran before, and every stale registration the
    failed phases had touched.
  */
  lemma {:induction false} RolledBackRuns(d: Diff, s: Slots, t: Slots, target: Table, phase: nat, id: Id)
    requires PlanFor(d, s, target) && phase <= 2 && Restored(d, phase, s, t)
    ensures Runs(t, id) == if id in Revived(d, s, target, phase) then Some(s[id].collector) else Runs(s, id)
  {
    TouchedStale(d, s, target, phase);
  }

  /**
    An error that reports a successful rollback leaves exactly what ran before running if and
    only if none of the collectors it had touched was registered without running.
  */
  lemma {:induction false} RolledBack(kinds: set<Kind>, w: World, candidate: seq<Collector>, a: Answer, v: World)
    requires ReloadStep(kinds, w, Some(candidate), a, v) && a.Ended? && a.outcome.RolledBack() && !v.closed
    ensures Running(v.slots) == Running(w.slots) <==>
      Revived(a.plan, w.slots, Desired(candidate, kinds), a.outcome.Phase()) == {}
  {
    var revived := Revived(a.plan, w.slots, Desired(candidate, kinds), a.outcome.Phase());
    forall id ensures Runs(v.slots, id) == if id in revived then Some(w.slots[id].collector) else Runs(w.slots, id) {
      RolledBackRuns(a.plan, w.slots, v.slots, Desired(candidate, kinds), a.outcome.Phase(), id);
    }
    RunningAt(v.slots, w.slots);
    if revived != {} {
      var id :| id in revived;
      assert Runs(v.slots, id) != Runs(w.slots, id);
    }
  }

  lemma {:induction false} RestartingRestores(d: Diff, s: Slots, target: Table, phase: nat, kinds: set<Kind>)
    requires PlanFor(d, s, target) && phase <= 2 && Kept(s, kinds)
    ensures var t := Restarting(AsRead(d, s), Touched(d, phase)); Kept(t, kinds) && UndoneBy(d, phase, s, t)
  {
    var t := Restarting(AsRead(d, s), Touched(d, phase));
    assert d.previous == Registered(s);
    forall id ensures Runs(t, id) == if id in Touched(d, phase) then At(d.previous, id) else Runs(s, id) {
      if id in Touched(d, phase) { assert id !in d.same; }
    }
  }

  /** What a plan adds is free, so that only an update or a removal can fail. */
  lemma {:induction false} AddingCannotFail(d: Diff, s: Slots, target: Table)
    requires PlanFor(d, s, target)
    ensures !Fallible(d, 0, s)
  {
    forall id | id in InPhase(d, 0) ensures Inert(s, id) {
      assert id !in Registered(s);
    }
  }

  /**
    Where a plan can fail, what it has touched by then is all running: something to wait for
    among the updates, and every registration of an ID that the target has; something to wait
    for among the removals, and every registration.  What it leaves alone is not meant.
  */
  ghost predicate Restorable(d: Diff, s: Slots, target: Table) {
    && (Fallible(d, 1, s) ==> Revived(d, s, target, 1) == {})
    && (Fallible(d, 2, s) ==> Revived(d, s, target, 2) == {})
  }

  /** A reload by the plan that ends, with the lifecycle open, with a rollback that reports success. */
  ghost predicate RollsBack(kinds: set<Kind>, w: World, candidate: seq<Collector>, d: Diff, a: Answer, v: World) {
    ReloadStep(kinds, w, Some(candidate), a, v) && a.Ended? && a.plan == d && a.outcome.RolledBack() && !v.closed
  }

  /**
    For a caller before the call: every way a reload by the plan can end with a rollback that
    reports success leaves exactly what ran before if and only if the plan is restorable.
  */
  lemma {:induction false} RollsBackAlways(kinds: set<Kind>, w: World, candidate: seq<Collector>, d: Diff)
    requires Sound(kinds, w) && !w.closed && PlanFor(d, w.slots, Desired(candidate, kinds))
    ensures (forall a, v | RollsBack(kinds, w, candidate, d, a, v) :: Running(v.slots) == Running(w.slots))
      <==> Restorable(d, w.slots, Desired(candidate, kinds))
  {
    var target := Desired(candidate, kinds);
    forall a, v | RollsBack(kinds, w, candidate, d, a, v)
      ensures Fallible(d, a.outcome.Phase(), w.slots) && (a.outcome.Phase() == 1 || a.outcome.Phase() == 2)
      ensures Running(v.slots) == Running(w.slots) <==> Revived(d, w.slots, target, a.outcome.Phase()) == {}
    {
      AddingCannotFail(d, w.slots, target);
      RolledBack(kinds, w, candidate, a, v);
    }
    if Fallible(d, 1, w.slots) { var a, v, _ := RollbackOf(kinds, w, candidate, d, 1); }
    if Fallible(d, 2, w.slots) { var a, v, _ := RollbackOf(kinds, w, candidate, d, 2); }
  }

  /**
    Where a plan can fail it does: there are calls, with how their waits end, that fail in that
    phase and whose undoing succeeds, and they are a reload of the service.
  */
  lemma {:induction false} RollbackOf(kinds: set<Kind>, w: World, candidate: seq<Collector>, d: Diff, k: nat)
    returns (a: Answer, v: World, late: Id)
    requires Sound(kinds, w) && !w.closed && PlanFor(d, w.slots, Desired(candidate, kinds))
    requires (k == 1 || k == 2) && Fallible(d, k, w.slots)
    ensures RollsBack(kinds, w, candidate, d, a, v) && a.outcome.Phase() == k
    ensures Drifted(w.slots, AsRead(d, w.slots)) && Plays(AsRead(d, w.slots), Calls(d, Attempt(k, late)), v.slots)
  {
    late :| late in InPhase(d, k) && !Inert(w.slots, late);
    a, v := FailsAndRestores(kinds, w, candidate, d, k, late);
    DesiredWellKeyed(candidate, kinds);
    PlanIsRead(d, w.slots, Desired(candidate, kinds));
    TouchedWaits(d, w.slots, Desired(candidate, kinds), k, late);
    RollbackPlays(d, AsRead(d, w.slots), Desired(candidate, kinds), k, late, kinds);
  }

  lemma {:induction false} TouchedWaits(d: Diff, s: Slots, target: Table, k: nat, id: Id)
    requires PlanFor(d, s, target) && (k == 1 || k == 2) && id in InPhase(d, k) && !Inert(s, id)
    ensures !Inert(AsRead(d, s), id)
  {
    assert id !in d.same;
  }

  lemma {:induction false} FailsAndRestores(kinds: set<Kind>, w: World, candidate: seq<Collector>, d: Diff, k: nat,
      late: Id)
    returns (a: Answer, v: World)
    requires Sound(kinds, w) && !w.closed && PlanFor(d, w.slots, Desired(candidate, kinds))
    requires (k == 1 || k == 2) && late in InPhase(d, k) && !Inert(w.slots, late)
    ensures RollsBack(kinds, w, candidate, d, a, v) && a.outcome.Phase() == k
    ensures v.slots == Restarting(AsRead(d, w.slots), Touched(d, k))
  {
    var failed := if k == 2 then Stop(late) else Update(w.slots[late].collector);
    assert failed.Id() == late && PhaseOf(failed) == k;
    a := Ended(d, Failed([failed], []));
    v := w.(slots := Restarting(AsRead(d, w.slots), Touched(d, k)));
    RestartingRestores(d, w.slots, Desired(candidate, kinds), k, kinds);
    assert Fallible(d, k, w.slots) && FailedIn(d, [failed], k);
  }

  /**
    For a caller who has no plan yet: where an ID of the target is registered with something to
    wait for, every such registration is running; and where another ID is, every registration.
  */
  ghost predicate SurelyRestorable(s: Slots, target: Table) {
    && ((exists id :: id in s && id in target && !Inert(s, id)) ==> Stale(s) * target.Keys == {})
    && ((exists id :: id in s && id !in target && !Inert(s, id)) ==> Stale(s) == {})
  }

  /** Whatever the plan, every rollback that reports success leaves what ran, if and only if that is so. */
  lemma {:induction false} AnyPlanRollsBack(kinds: set<Kind>, w: World, candidate: seq<Collector>)
    requires Sound(kinds, w) && !w.closed
    ensures (forall d, a, v | RollsBack(kinds, w, candidate, d, a, v) :: Running(v.slots) == Running(w.slots))
      <==> SurelyRestorable(w.slots, Desired(candidate, kinds))
  {
    var target := Desired(candidate, kinds);
    DesiredWellKeyed(candidate, kinds);
    if SurelyRestorable(w.slots, target) {
      forall d, a, v | RollsBack(kinds, w, candidate, d, a, v) ensures Running(v.slots) == Running(w.slots) {
        SurelyIsRestorable(d, w.slots, target);
        RollsBackAlways(kinds, w, candidate, d);
      }
    } else {
      var full := PlanWith(w.slots, target, kinds, {});
      FullIsWorst(full, w.slots, target);
      RollsBackAlways(kinds, w, candidate, full);
    }
  }

  lemma {:induction false} SurelyIsRestorable(d: Diff, s: Slots, target: Table)
    requires PlanFor(d, s, target) && SurelyRestorable(s, target)
    ensures Restorable(d, s, target)
  {
    assert d.previous == Registered(s);
    if Fallible(d, 1, s) {
      var id :| id in InPhase(d, 1) && !Inert(s, id);
      assert id in s && id in target;
    }
    if Fallible(d, 2, s) {
      var id :| id in InPhase(d, 2) && !Inert(s, id);
      assert id in s && id !in target;
    }
  }

  lemma {:induction false} FullIsWorst(d: Diff, s: Slots, target: Table)
    requires PlanFor(d, s, target) && Named(d.same) == {}
    ensures Restorable(d, s, target) ==> SurelyRestorable(s, target)
  {
    assert d.previous == Registered(s);
    if id :| id in s && id in target && !Inert(s, id) {
      assert id in InPhase(d, 1);
    }
    if id :| id in s && id !in target && !Inert(s, id) {
      assert id in InPhase(d, 2);
    }
  }

  // ------------------------------------------------------------ plans

  lemma {:induction false} ListOf(ids: set<Id>) returns (l: seq<Id>)
    ensures Named(l) == ids && Distinct(l)
    decreases |ids|
  {
    l := [];
    if ids != {} {
      var id :| id in ids;
      var rest := ListOf(ids - {id});
      assert id !in Named(rest);
      IdPush(rest, id);
      l := rest + [id];
    }
  }

  lemma {:induction false} CollectorsOf(ids: set<Id>, t: Table, kinds: set<Kind>) returns (cs: seq<Collector>)
    requires ids <= t.Keys && WellKeyed(t, kinds)
    ensures Ids(cs) == ids && DistinctIds(cs) && forall c | c in cs :: c.id in t && t[c.id] == c
    decreases |ids|
  {
    cs := [];
    if ids != {} {
      var id :| id in ids;
      var rest := CollectorsOf(ids - {id}, t, kinds);
      IdsPush(rest, t[id]);
      cs := rest + [t[id]];
    }
  }

  /** There is a plan that leaves alone just the given IDs, if they may be. */
  lemma {:induction false} PlanWith(s: Slots, target: Table, kinds: set<Kind>, same: set<Id>) returns (d: Diff)
    requires Kept(s, kinds) && WellKeyed(target, kinds)
    requires forall id | id in same ::
      id in s && id in target && s[id].collector == target[id] && (s[id].stage.Live? || s[id].stage == Stuck(true))
    ensures PlanFor(d, s, target) && Named(d.same) == same
  {
    var prior := Registered(s);
    var added := CollectorsOf(target.Keys - prior.Keys, target, kinds);
    var updated := CollectorsOf(target.Keys * prior.Keys - same, target, kinds);
    var removed := ListOf(prior.Keys - target.Keys);
    var left := ListOf(same);
    d := Diff(added, updated, removed, left, prior);
    forall id | id in left ensures id in same { assert id in Named(left); }
  }

  // ------------------------------------------------------------ what a reload that applies misses

  /** A wanted registration with the wanted configuration is stopping: it may exit while the plan is made. */
  ghost predicate Missable(s: Slots, target: Table) {
    exists id :: id in s && id in target && s[id] == Slot(target[id], Stuck(true))
  }

  /** A reload by the plan that applies with the lifecycle open. */
  ghost predicate AppliesBy(kinds: set<Kind>, w: World, candidate: seq<Collector>, d: Diff, v: World) {
    ReloadStep(kinds, w, Some(candidate), Ended(d, Applied), v) && !v.closed
  }

  lemma {:induction false} MissedAreMissable(d: Diff, s: Slots, target: Table)
    requires PlanFor(d, s, target) && Missed(d, s) != {}
    ensures Missable(s, target)
  {
    var id :| id in Missed(d, s);
    assert s[id].stage == Stuck(true) && id in Registered(s);
    assert s[id] == Slot(target[id], Stuck(true));
  }

  /**
    For a caller before the call: every reload that applies leaves exactly the candidate running
    if and only if no wanted registration with the wanted configuration is stopping.
  */
  lemma {:induction false} AppliesAlways(kinds: set<Kind>, w: World, candidate: seq<Collector>)
    requires Sound(kinds, w) && !w.closed
    ensures (forall d, v | AppliesBy(kinds, w, candidate, d, v) :: Running(v.slots) == Desired(candidate, kinds))
      <==> !Missable(w.slots, Desired(candidate, kinds))
  {
    var target := Desired(candidate, kinds);
    forall d, v | AppliesBy(kinds, w, candidate, d, v)
      ensures Running(v.slots) == target <==> Missed(d, w.slots) == {}
      ensures Missed(d, w.slots) != {} ==> Missable(w.slots, target)
    {
      LessIsLess(d, w.slots, v.slots, target);
      if Missed(d, w.slots) != {} { MissedAreMissable(d, w.slots, target); }
    }
    if Missable(w.slots, target) {
      var id :| id in w.slots && id in target && w.slots[id] == Slot(target[id], Stuck(true));
      var d, v := MissesOf(kinds, w, candidate, id);
    }
  }

  lemma {:induction false} LessIsLess(d: Diff, s: Slots, t: Slots, target: Table)
    requires AppliedBy(d, s, t, target)
    ensures Running(t) == target <==> Missed(d, s) == {}
    ensures Missed(d, s) <= target.Keys
  {
    assert target - {} == target;
    if id :| id in Missed(d, s) {
      assert id in target && id !in Running(t);
    }
  }

  /**
    A registration that may be missed is: it exits before its check, and there are calls, all in
    time, that are a reload of the service which applies and leaves it not running.
  */
  lemma {:induction false} MissesOf(kinds: set<Kind>, w: World, candidate: seq<Collector>, id: Id)
    returns (d: Diff, v: World)
    requires Sound(kinds, w) && !w.closed && id in w.slots && id in Desired(candidate, kinds)
    requires w.slots[id] == Slot(Desired(candidate, kinds)[id], Stuck(true))
    ensures AppliesBy(kinds, w, candidate, d, v) && id in Missed(d, w.slots)
    ensures Drifted(w.slots, AsRead(d, w.slots)) && Plays(AsRead(d, w.slots), Calls(d, Forward()), v.slots)
  {
    var target := Desired(candidate, kinds);
    DesiredWellKeyed(candidate, kinds);
    d := PlanWith(w.slots, target, kinds, {id});
    assert id in Named(d.same);
    PlanIsRead(d, w.slots, target);
    var t := ForwardPlays(d, AsRead(d, w.slots), target, kinds);
    v := World(t, false, candidate, false);
  }

  // ------------------------------------------------------------ every sequence of reloads

  datatype Move = Background | Shutdown | Reloads(candidate: Option<seq<Collector>>, answer: Answer)

  ghost predicate Moves(kinds: set<Kind>, w: World, m: Move, v: World) {
    match m
    case Background => Drifted(w.slots, v.slots) && v == w.(slots := v.slots)
    case Shutdown => v == w.(slots := CancelAll(w.slots), closed := true)
    case Reloads(candidate, a) => ReloadStep(kinds, w, candidate, a, v)
  }

  /** A run of the service, from a successful start. */
  ghost predicate Run(kinds: set<Kind>, run: seq<World>, moves: seq<Move>) {
    && |run| == |moves| + 1
    && !run[0].closed && !run[0].diverged && Running(run[0].slots) == Desired(run[0].config, kinds)
    && forall i | 0 <= i < |moves| :: Moves(kinds, run[i], moves[i], run[i + 1])
  }

  /** Whether the move was a rolled-back reload that restarted stale registrations. */
  ghost predicate Revives(kinds: set<Kind>, w: World, m: Move) {
    && m.Reloads? && m.candidate.Some? && m.answer.Ended? && m.answer.outcome.RolledBack()
    && Revived(m.answer.plan, w.slots, Desired(m.candidate.value, kinds), m.answer.outcome.Phase()) != {}
  }

  /** No move since the last reload that applied restarted stale registrations. */
  ghost predicate Clean(kinds: set<Kind>, run: seq<World>, moves: seq<Move>, i: nat)
    requires i <= |moves| < |run|
  {
    || i == 0
    || Applies(moves[i - 1])
    || (!Revives(kinds, run[i - 1], moves[i - 1]) && Clean(kinds, run, moves, i - 1))
  }

  /** The last reload that applied, if there was one, missed nothing. */
  ghost predicate Whole(run: seq<World>, moves: seq<Move>, i: nat)
    requires i <= |moves| < |run|
  {
    || i == 0
    || (if Applies(moves[i - 1]) then Missed(moves[i - 1].answer.plan, run[i - 1].slots) == {}
        else Whole(run, moves, i - 1))
  }

  ghost predicate RunsAll(s: Slots, desired: Table) {
    forall id | id in desired :: Runs(s, id) == Some(desired[id])
  }

  ghost predicate RunsOnly(s: Slots, desired: Table) {
    forall id | Runs(s, id).Some? :: id in desired
  }

  /** What is wanted and registered runs as it is wanted. */
  ghost predicate RunsWhere(s: Slots, desired: Table) {
    forall id | id in desired && id in s :: Runs(s, id) == Some(desired[id])
  }

  /**
    Everything the snapshot wants runs exactly when the run is whole, and nothing else does
    exactly when it is clean; after a shutdown, nothing runs.
  */
  ghost predicate Honest(kinds: set<Kind>, w: World, whole: bool, clean: bool) {
    && (w.closed ==> NoneLive(w.slots))
    && (!w.closed && !w.diverged ==>
          && RunsWhere(w.slots, Desired(w.config, kinds))
          && (RunsAll(w.slots, Desired(w.config, kinds)) <==> whole)
          && (RunsOnly(w.slots, Desired(w.config, kinds)) <==> clean))
  }

  lemma {:induction false} HonestBackground(kinds: set<Kind>, w: World, v: World, whole: bool, clean: bool)
    requires Honest(kinds, w, whole, clean) && Moves(kinds, w, Background, v)
    ensures Honest(kinds, v, whole, clean)
  {
    forall id ensures Runs(v.slots, id) == Runs(w.slots, id) { DriftedRuns(w.slots, v.slots, id); }
    forall id | id in v.slots && v.slots[id].stage.Live? ensures Runs(w.slots, id).Some? {
      assert Runs(v.slots, id).Some?;
    }
  }

  lemma {:induction false} HonestRolledBack(kinds: set<Kind>, w: World, candidate: seq<Collector>, a: Answer,
      v: World, whole: bool, clean: bool)
    requires Honest(kinds, w, whole, clean) && ReloadStep(kinds, w, Some(candidate), a, v) && a.Ended?
      && a.outcome.RolledBack()
    requires !v.closed
    ensures Honest(kinds, v, whole, clean && !Revives(kinds, w, Reloads(Some(candidate), a)))
  {
    var target, desired := Desired(candidate, kinds), Desired(w.config, kinds);
    var revived := Revived(a.plan, w.slots, target, a.outcome.Phase());
    forall id ensures Runs(v.slots, id) == if id in revived then Some(w.slots[id].collector) else Runs(w.slots, id) {
      RolledBackRuns(a.plan, w.slots, v.slots, target, a.outcome.Phase(), id);
    }
    if !v.diverged {
      assert revived <= Stale(w.slots);
      NoneWantedStale(w.slots, desired);
      RevivedHonest(w.slots, v.slots, desired, revived);
    }
  }

  lemma {:induction false} NoneWantedStale(s: Slots, desired: Table)
    requires RunsWhere(s, desired)
    ensures Stale(s) !! desired.Keys
  {
    forall id | id in Stale(s) ensures id !in desired {
      assert id in s && id !in Running(s);
    }
  }

  lemma {:induction false} RevivedHonest(s: Slots, t: Slots, desired: Table, revived: set<Id>)
    requires RunsWhere(s, desired) && t.Keys <= s.Keys && revived !! desired.Keys && revived <= s.Keys
    requires forall id :: Runs(t, id) == if id in revived then Some(s[id].collector) else Runs(s, id)
    ensures RunsWhere(t, desired) && (RunsAll(t, desired) <==> RunsAll(s, desired))
    ensures RunsOnly(t, desired) <==> RunsOnly(s, desired) && revived == {}
  {
    if id :| id in revived {
      assert Runs(t, id).Some? && id !in desired;
    } else {
      assert forall id :: Runs(t, id) == Runs(s, id);
    }
  }

  lemma {:induction false} HonestApplied(kinds: set<Kind>, w: World, missed: set<Id>)
    requires !w.closed && Running(w.slots) == Desired(w.config, kinds) - missed && w.slots.Keys !! missed
    requires missed <= Desired(w.config, kinds).Keys
    ensures Honest(kinds, w, missed == {}, true)
  {
    var desired := Desired(w.config, kinds);
    forall id ensures Runs(w.slots, id) == At(desired - missed, id) {
      assert id in Running(w.slots) <==> id in desired - missed;
    }
    if id :| id in missed {
      assert Runs(w.slots, id).None? && id in desired;
    }
  }

  lemma {:induction false} RunsExactly(s: Slots, desired: Table)
    ensures Running(s) == desired <==> RunsAll(s, desired) && RunsOnly(s, desired)
  {
    if RunsAll(s, desired) && RunsOnly(s, desired) {
      forall id ensures Runs(s, id) == At(desired, id) {}
      RunningIs(s, desired);
    }
    if Running(s) == desired {
      forall id ensures Runs(s, id) == At(desired, id) { assert id in Running(s) <==> id in desired; }
    }
  }

  predicate Applies(m: Move) {
    m.Reloads? && m.answer.Ended? && m.answer.outcome.Applied?
  }

  lemma {:induction false} HonestMove(kinds: set<Kind>, w: World, m: Move, v: World, whole: bool, clean: bool)
    requires Honest(kinds, w, whole, clean) && Moves(kinds, w, m, v)
    ensures Honest(kinds, v, if Applies(m) then Missed(m.answer.plan, w.slots) == {} else whole,
                   Applies(m) || (clean && !Revives(kinds, w, m)))
  {
    if m.Background? {
      HonestBackground(kinds, w, v, whole, clean);
    } else if !v.closed {
      if Applies(m) {
        LessIsLess(m.answer.plan, w.slots, v.slots, Desired(m.candidate.value, kinds));
        HonestApplied(kinds, v, Missed(m.answer.plan, w.slots));
      } else if m.answer.Ended? && m.answer.outcome.RolledBack() {
        HonestRolledBack(kinds, w, m.candidate.value, m.answer, v, whole, clean);
      }
    }
  }

  lemma {:induction false} RunMoves(kinds: set<Kind>, run: seq<World>, moves: seq<Move>, i: nat)
    requires Run(kinds, run, moves) && i < |moves|
    ensures Moves(kinds, run[i], moves[i], run[i + 1])
  {
  }

  /**
    Over every sequence of reloads until a shutdown, whenever the snapshot does not say that the
    runtime diverged: everything it wants runs if and only if the last reload that applied missed
    nothing, and nothing else runs if and only if no rolled-back reload since then had touched a
    registered collector that was not running.  After a shutdown, nothing runs.
  */
  lemma {:induction false} EveryRun(kinds: set<Kind>, run: seq<World>, moves: seq<Move>, i: nat)
    requires Run(kinds, run, moves) && i < |run|
    ensures Honest(kinds, run[i], Whole(run, moves, i), Clean(kinds, run, moves, i))
  {
    if i == 0 {
      var desired := Desired(run[0].config, kinds);
      assert desired - {} == desired;
      HonestApplied(kinds, run[0], {});
    } else {
      EveryRun(kinds, run, moves, i - 1);
      RunMoves(kinds, run, moves, i - 1);
      HonestMove(kinds, run[i - 1], moves[i - 1], run[i], Whole(run, moves, i - 1), Clean(kinds, run, moves, i - 1));
    }
  }

  /** So exactly the snapshot's collectors run if and only if the run is whole and clean. */
  lemma {:induction false} EveryRunExactly(kinds: set<Kind>, run: seq<World>, moves: seq<Move>, i: nat)
    requires Run(kinds, run, moves) && i < |run| && !run[i].closed && !run[i].diverged
    ensures Running(run[i].slots) == Desired(run[i].config, kinds) <==>
      Whole(run, moves, i) && Clean(kinds, run, moves, i)
  {
    EveryRun(kinds, run, moves, i);
    RunsExactly(run[i].slots, Desired(run[i].config, kinds));
  }
}
