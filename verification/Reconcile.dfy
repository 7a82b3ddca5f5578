/**
  Applying a plan to a running lifecycle in three phases, and undoing it when a step fails.
*/
module Reconcile {
  import opened Basics
  import opened Collectors

  /** A collector's transition and how to undo it. */
  datatype Step = Step(id: Id, do: seq<Call>, undo: seq<Call>) {
    function Calls(undoing: bool): seq<Call> {
      if undoing then undo else do
    }

    /** The next call when that many are left. */
    function NextCall(undoing: bool, left: nat): Call
      requires 0 < left <= |Calls(undoing)|
    {
      Calls(undoing)[|Calls(undoing)| - left]
    }
  }

  function AddSteps(d: Diff): seq<Step> {
    seq(|d.added|, i requires 0 <= i < |d.added| => Step(d.added[i].id, [Start(d.added[i])], [Stop(d.added[i].id)]))
  }

  function UpdateSteps(d: Diff): seq<Step> {
    seq(|d.updated|, i requires 0 <= i < |d.updated| =>
      var c := d.updated[i];
      Step(c.id, [Update(c)], [if c.id in d.previous then Update(d.previous[c.id]) else Refuse(c.id)]))
  }

  function RemoveSteps(d: Diff): seq<Step> {
    seq(|d.removed|, i requires 0 <= i < |d.removed| =>
      var id := d.removed[i];
      Step(id, [Drain(id), Stop(id)], [if id in d.previous then Start(d.previous[id]) else Refuse(id)]))
  }

  function Phases(d: Diff): seq<seq<Step>> {
    [AddSteps(d), UpdateSteps(d), RemoveSteps(d)]
  }

  // ------------------------------------------------------------ one phase

  predicate WellFormed(calls: seq<Call>, id: Id, kinds: set<Kind>) {
    && calls != [] && !calls[|calls| - 1].Drain?
    && (forall k | 0 <= k < |calls| - 1 :: calls[k].Drain?)
    && forall call | call in calls :: call.Id() == id && (call.Start? || call.Update? ==> Wanted(call.c, kinds))
  }

  predicate WellFormedPhase(steps: seq<Step>, kinds: set<Kind>) {
    && (forall i | 0 <= i < |steps| ::
          WellFormed(steps[i].do, steps[i].id, kinds) && WellFormed(steps[i].undo, steps[i].id, kinds))
    && (forall i, j | 0 <= i < j < |steps| :: steps[i].id != steps[j].id)
  }

  function StepIds(steps: seq<Step>): set<Id> {
    set i | 0 <= i < |steps| :: steps[i].id
  }

  /** Every step of the phase has left running what its calls were to. */
  ghost predicate Achieved(s: Slots, steps: seq<Step>, undoing: bool, kinds: set<Kind>)
    requires WellFormedPhase(steps, kinds)
  {
    forall i | 0 <= i < |steps| :: Runs(s, steps[i].id) == Goal(steps[i].Calls(undoing))
  }

  /** The calls left of all steps together. */
  function Total(left: seq<nat>): nat {
    if left == [] then 0 else left[0] + Total(left[1..])
  }

  lemma {:induction false} TotalDrops(left: seq<nat>, i: nat, n: nat)
    requires i < |left| && n < left[i]
    ensures Total(left[i := n]) < Total(left)
  {
    if i == 0 {
      assert left[0 := n][1..] == left[1..];
    } else {
      assert left[i := n][1..] == left[1..][i - 1 := n];
      TotalDrops(left[1..], i - 1, n);
    }
  }

  /** The calls that failed, in step order. */
  method Failures(results: seq<Option<Call>>) returns (errs: seq<Call>)
    ensures errs == [] <==> forall i | 0 <= i < |results| :: results[i].None?
    ensures forall e | e in errs :: Some(e) in results
  {
    errs := [];
    for i := 0 to |results|
      invariant errs == [] <==> forall j | 0 <= j < i :: results[j].None?
      invariant forall e | e in errs :: Some(e) in results
    {
      if results[i].Some? { errs := errs + [results[i].value]; }
    }
  }

  // ------------------------------------------------------------ the phases of a plan

  datatype Outcome = Applied | Failed(forward: seq<Call>, rollback: seq<Call>) {
    /** The phase that failed. */
    function Phase(): nat
      requires Failed? && forward != []
    {
      PhaseOf(forward[0])
    }

    predicate RolledBack() {
      Failed? && forward != [] && rollback == []
    }
  }

  function PhaseOf(call: Call): nat {
    if call.Start? then 0 else if call.Update? then 1 else 2
  }

  /** The IDs that the phases up to k deal with. */
  function Touched(d: Diff, k: nat): set<Id> {
    Ids(d.added) + (if k >= 1 then Ids(d.updated) else {}) + (if k >= 2 then Named(d.removed) else {})
  }

  /** The IDs that the phase k deals with. */
  function InPhase(d: Diff, k: nat): set<Id> {
    if k == 0 then Ids(d.added) else if k == 1 then Ids(d.updated) else Named(d.removed)
  }

  /** Something in the phase is to be waited for, so the phase can fail while the lifecycle is open. */
  ghost predicate Fallible(d: Diff, k: nat, s: Slots) {
    exists id :: id in InPhase(d, k) && !Inert(s, id)
  }

  /** What is registered was when the plan was read, and what the plan leaves alone runs as it should, if at all. */
  ghost predicate Current(d: Diff, target: Table, s: Slots) {
    && (forall id | id in s :: id in d.previous)
    && (forall id | id in d.same :: id in target && (Runs(s, id).Some? ==> Runs(s, id) == Some(target[id])))
  }

  /** What the plan leaves alone and does not run. */
  function Missed(d: Diff, s: Slots): set<Id> {
    set id | id in d.same && Runs(s, id).None?
  }

  /** The collector a table has under the ID. */
  function At(t: Table, id: Id): Option<Collector> {
    if id in t then Some(t[id]) else None
  }

  lemma {:induction false} RunningIs(s: Slots, t: Table)
    requires forall id :: Runs(s, id) == At(t, id)
    ensures Running(s) == t
  {
    forall id ensures id in Running(s) <==> id in t { assert Runs(s, id) == At(t, id); }
    forall id | id in t ensures Running(s)[id] == t[id] { assert Runs(s, id) == At(t, id); }
  }

  /** Every touched ID runs what the plan holds as previous, and the others what they ran before. */
  ghost predicate Restored(d: Diff, phase: nat, s: Slots, t: Slots) {
    forall id :: Runs(t, id) == if id in Touched(d, phase) then At(d.previous, id) else Runs(s, id)
  }

  function PhaseIds(phases: seq<seq<Step>>, n: nat): set<Id>
    requires n <= |phases|
  {
    if n == 0 then {} else PhaseIds(phases, n - 1) + StepIds(phases[n - 1])
  }

  function Reversed(steps: seq<Step>): seq<Step> {
    seq(|steps|, i requires 0 <= i < |steps| => steps[|steps| - 1 - i])
  }

  /** Every phase is well formed, and no two deal with the same ID. */
  ghost predicate Separate(phases: seq<seq<Step>>, kinds: set<Kind>) {
    && (forall k | 0 <= k < |phases| :: WellFormedPhase(phases[k], kinds))
    && (forall k, l | 0 <= k < l < |phases| :: StepIds(phases[k]) !! StepIds(phases[l]))
  }

  lemma {:induction false} StepIdsOf(d: Diff)
    ensures StepIds(AddSteps(d)) == Ids(d.added)
    ensures StepIds(UpdateSteps(d)) == Ids(d.updated)
    ensures StepIds(RemoveSteps(d)) == Named(d.removed)
  {
    forall c | c in d.added ensures c.id in StepIds(AddSteps(d)) {
      var i :| 0 <= i < |d.added| && d.added[i] == c;
      assert AddSteps(d)[i].id == c.id;
    }
    forall c | c in d.updated ensures c.id in StepIds(UpdateSteps(d)) {
      var i :| 0 <= i < |d.updated| && d.updated[i] == c;
      assert UpdateSteps(d)[i].id == c.id;
    }
    forall id | id in d.removed ensures id in StepIds(RemoveSteps(d)) {
      var i :| 0 <= i < |d.removed| && d.removed[i] == id;
      assert RemoveSteps(d)[i].id == id;
    }
  }

  lemma {:induction false} PhasesFit(d: Diff, target: Table, kinds: set<Kind>)
    requires IsPlan(d, d.previous, target) && WellKeyed(d.previous, kinds) && WellKeyed(target, kinds)
    ensures Separate(Phases(d), kinds)
  {
    StepIdsOf(d);
    assert WellFormedPhase(AddSteps(d), kinds);
    assert WellFormedPhase(UpdateSteps(d), kinds);
    assert WellFormedPhase(RemoveSteps(d), kinds);
  }

  lemma {:induction false} PhaseIdsTouched(d: Diff, n: nat)
    requires n <= 3
    ensures n > 0 ==> PhaseIds(Phases(d), n) == Touched(d, n - 1)
  {
    StepIdsOf(d);
    if n > 0 { PhaseIdsTouched(d, n - 1); }
  }

  lemma {:induction false} ForwardCalls(d: Diff, i: nat, errs: seq<Call>)
    requires i < 3
    requires forall e | e in errs :: exists j | 0 <= j < |Phases(d)[i]| :: e in Phases(d)[i][j].Calls(false)
    ensures forall e | e in errs :: PhaseOf(e) == i && e.Id() in InPhase(d, i) && !e.Refuse?
  {
    StepIdsOf(d);
    forall e | e in errs ensures PhaseOf(e) == i && e.Id() in StepIds(Phases(d)[i]) && !e.Refuse? {
      var j :| 0 <= j < |Phases(d)[i]| && e in Phases(d)[i][j].Calls(false);
      assert e.Id() == Phases(d)[i][j].id;
    }
  }

  /** A phase leaves what earlier ones achieved. */
  lemma {:induction false} AchievedKept(phases: seq<seq<Step>>, i: nat, undoing: bool, s: Slots, t: Slots,
      kinds: set<Kind>)
    requires Separate(phases, kinds) && i < |phases|
    requires Beside(StepIds(phases[i]), s, t)
    ensures forall k | 0 <= k < i :: Achieved(s, phases[k], undoing, kinds) ==> Achieved(t, phases[k], undoing, kinds)
  {
    forall k | 0 <= k < i && Achieved(s, phases[k], undoing, kinds) ensures Achieved(t, phases[k], undoing, kinds) {
      forall j | 0 <= j < |phases[k]| ensures Runs(t, phases[k][j].id) == Runs(s, phases[k][j].id) {
        assert phases[k][j].id in StepIds(phases[k]);
      }
    }
  }

  lemma {:induction false} AchievedKeptLater(phases: seq<seq<Step>>, i: nat, n: nat, undoing: bool, s: Slots,
      t: Slots, kinds: set<Kind>)
    requires Separate(phases, kinds) && i < n <= |phases|
    requires Beside(StepIds(phases[i]), s, t)
    ensures forall k | i < k < n :: Achieved(s, phases[k], undoing, kinds) ==> Achieved(t, phases[k], undoing, kinds)
  {
    forall k | i < k < n && Achieved(s, phases[k], undoing, kinds) ensures Achieved(t, phases[k], undoing, kinds) {
      forall j | 0 <= j < |phases[k]| ensures Runs(t, phases[k][j].id) == Runs(s, phases[k][j].id) {
        assert phases[k][j].id in StepIds(phases[k]);
      }
    }
  }

  lemma {:induction false} ReversedFits(steps: seq<Step>, kinds: set<Kind>)
    requires WellFormedPhase(steps, kinds)
    ensures WellFormedPhase(Reversed(steps), kinds) && StepIds(Reversed(steps)) == StepIds(steps)
  {
    var back := Reversed(steps);
    forall id | id in StepIds(steps) ensures id in StepIds(back) {
      var i :| 0 <= i < |steps| && steps[i].id == id;
      assert back[|steps| - 1 - i].id == id;
    }
  }

  lemma {:induction false} ReversedAchieved(steps: seq<Step>, undoing: bool, s: Slots, kinds: set<Kind>)
    requires WellFormedPhase(steps, kinds) && WellFormedPhase(Reversed(steps), kinds)
    requires Achieved(s, Reversed(steps), undoing, kinds)
    ensures Achieved(s, steps, undoing, kinds)
  {
    forall i | 0 <= i < |steps| ensures Runs(s, steps[i].id) == Goal(steps[i].Calls(undoing)) {
      assert Reversed(steps)[|steps| - 1 - i] == steps[i];
    }
  }

  /** With every phase done, exactly the target runs. */
  lemma {:induction false} AllAchieved(d: Diff, target: Table, s: Slots, t: Slots, kinds: set<Kind>)
    requires IsPlan(d, d.previous, target) && Current(d, target, s) && Separate(Phases(d), kinds)
    requires forall k | 0 <= k < 3 :: Achieved(t, Phases(d)[k], false, kinds)
    requires forall id | id !in Touched(d, 2) :: Runs(t, id) == Runs(s, id)
    ensures Running(t) == target - Missed(d, s)
  {
    forall id ensures Runs(t, id) == At(target - Missed(d, s), id) {
      GoalAt(d, target, t, id, kinds);
      ReachedAt(d, target, s, t, id);
    }
    RunningIs(t, target - Missed(d, s));
  }

  /** What runs under an ID that is touched is the target's, and under another what ran there. */
  lemma {:induction false} ReachedAt(d: Diff, target: Table, s: Slots, t: Slots, id: Id)
    requires IsPlan(d, d.previous, target) && Current(d, target, s)
    requires Runs(t, id) == if id in Touched(d, 2) then At(target, id) else Runs(s, id)
    ensures Runs(t, id) == At(target - Missed(d, s), id)
  {
    if id in Touched(d, 2) { assert id !in d.same; }
    else if id in d.previous { assert id in d.same; }
  }

  /** What a plan adds is free, so that its first phase has nothing to wait for. */
  lemma {:induction false} FirstSucceeds(d: Diff, target: Table, s: Slots)
    requires IsPlan(d, d.previous, target) && Current(d, target, s)
    ensures !Fallible(d, 0, s)
  {
    forall id | id in InPhase(d, 0) ensures Inert(s, id) {
      assert id !in d.previous;
    }
  }

  lemma {:induction false} FirstKept(phases: seq<seq<Step>>, i: nat, s: Slots, t: Slots, kinds: set<Kind>)
    requires Separate(phases, kinds) && 0 < i < |phases| && Beside(StepIds(phases[i]), s, t)
    requires Achieved(s, phases[0], false, kinds)
    ensures Achieved(t, phases[0], false, kinds)
  {
    AchievedKept(phases, i, false, s, t, kinds);
  }

  /** Undoing the first phase frees what it started. */
  lemma {:induction false} AddedFreed(d: Diff, s: Slots, t: Slots, kinds: set<Kind>)
    requires WellFormedPhase(AddSteps(d), kinds) && Achieved(s, AddSteps(d), false, kinds)
    requires Freed(s, t, Reversed(AddSteps(d)), true)
    ensures Ids(d.added) !! t.Keys
  {
    var steps := AddSteps(d);
    forall c | c in d.added ensures c.id !in t {
      var i :| 0 <= i < |d.added| && d.added[i] == c;
      assert Runs(s, steps[i].id) == Goal(steps[i].Calls(false));
      assert Reversed(steps)[|steps| - 1 - i] == steps[i];
    }
  }

  /** Once all is undone, nothing is registered that was not. */
  lemma {:induction false} NoneNew(d: Diff, n: nat, s: Slots, t: Slots, target: Table)
    requires IsPlan(d, d.previous, target) && 1 <= n <= 3 && Ids(d.added) !! t.Keys
    requires Beside(Touched(d, n - 1), s, t)
    ensures t.Keys <= s.Keys + d.previous.Keys
  {
    forall id | id in t ensures id in s || id in d.previous {
      if id !in Touched(d, n - 1) { assert id !in s ==> id !in t; }
    }
  }

  lemma {:induction false} GoalAt(d: Diff, target: Table, t: Slots, id: Id, kinds: set<Kind>)
    requires IsPlan(d, d.previous, target) && Separate(Phases(d), kinds)
    requires forall k | 0 <= k < 3 :: Achieved(t, Phases(d)[k], false, kinds)
    ensures id in Touched(d, 2) ==> Runs(t, id) == At(target, id)
  {
    assert Achieved(t, Phases(d)[0], false, kinds) && Achieved(t, Phases(d)[1], false, kinds)
      && Achieved(t, Phases(d)[2], false, kinds);
    if id in Ids(d.added) {
      var i :| 0 <= i < |d.added| && d.added[i].id == id;
      assert d.added[i] in d.added && Runs(t, AddSteps(d)[i].id) == Goal(AddSteps(d)[i].Calls(false));
    } else if id in Ids(d.updated) {
      var i :| 0 <= i < |d.updated| && d.updated[i].id == id;
      assert d.updated[i] in d.updated && Runs(t, UpdateSteps(d)[i].id) == Goal(UpdateSteps(d)[i].Calls(false));
    } else if id in d.removed {
      var i :| 0 <= i < |d.removed| && d.removed[i] == id;
      assert id in Named(d.removed) && Runs(t, RemoveSteps(d)[i].id) == Goal(RemoveSteps(d)[i].Calls(false));
    }
  }

  /** With every phase undone, the touched IDs run what they had as previous. */
  lemma {:induction false} AllUndone(d: Diff, n: nat, s: Slots, t: Slots, target: Table, kinds: set<Kind>)
    requires IsPlan(d, d.previous, target) && Separate(Phases(d), kinds) && 1 <= n <= 3
    requires forall k | 0 <= k < n :: Achieved(t, Phases(d)[k], true, kinds)
    requires forall id | id !in Touched(d, n - 1) :: Runs(t, id) == Runs(s, id)
    ensures Restored(d, n - 1, s, t)
  {
    forall id | id in Touched(d, n - 1) ensures Runs(t, id) == At(d.previous, id) {
      UndoneAt(d, n, target, t, id, kinds);
    }
  }

  lemma {:induction false} UndoneAt(d: Diff, n: nat, target: Table, t: Slots, id: Id, kinds: set<Kind>)
    requires IsPlan(d, d.previous, target) && Separate(Phases(d), kinds) && 1 <= n <= 3
    requires forall k | 0 <= k < n :: Achieved(t, Phases(d)[k], true, kinds)
    requires id in Touched(d, n - 1)
    ensures Runs(t, id) == At(d.previous, id)
  {
    if id in Ids(d.added) {
      assert Achieved(t, Phases(d)[0], true, kinds);
      var i :| 0 <= i < |d.added| && d.added[i].id == id;
      assert d.added[i] in d.added && Runs(t, AddSteps(d)[i].id) == Goal(AddSteps(d)[i].Calls(true));
    } else if id in Ids(d.updated) {
      assert Achieved(t, Phases(d)[1], true, kinds);
      var i :| 0 <= i < |d.updated| && d.updated[i].id == id;
      assert d.updated[i] in d.updated && Runs(t, UpdateSteps(d)[i].id) == Goal(UpdateSteps(d)[i].Calls(true));
    } else {
      assert Achieved(t, Phases(d)[2], true, kinds);
      var i :| 0 <= i < |d.removed| && d.removed[i] == id;
      assert id in Named(d.removed) && Runs(t, RemoveSteps(d)[i].id) == Goal(RemoveSteps(d)[i].Calls(true));
    }
  }

  // ------------------------------------------------------------ the lifecycle and its use

  class Lifecycle {
    var slots: Slots
    var closed: bool

    /** Nothing is live once the lifecycle is closed. */
    ghost predicate Valid()
      reads this
    {
      closed ==> NoneLive(slots)
    }

    constructor ()
      ensures slots == map[] && !closed && Valid()
    {
      slots, closed := map[], false;
    }

    /** Cancels every poller and refuses to start another. */
    method Shutdown()
      modifies this
      ensures closed && slots == CancelAll(old(slots)) && Valid()
    {
      slots, closed := CancelAll(slots), true;
    }

    /** What happens to pollers between calls; a shutdown may come in between, too. */
    method Drift(ghost kinds: set<Kind>)
      requires Valid() && Kept(slots, kinds)
      modifies this
      ensures Valid() && Kept(slots, kinds) && (old(closed) ==> closed)
      ensures !closed ==> Drifted(old(slots), slots)
    {
      assert Drifted(slots, slots);
      var after :| Drifted(slots, after);
      DriftedStill(slots, after, kinds);
      slots := after;
      var shut: bool := *;
      if shut { Shutdown(); }
    }

    /**
      One call of the lifecycle, after whatever happened since the last and until it returns;
      how its wait ends is not up to the caller.  A closed lifecycle starts nothing.
    */
    method Perform(call: Call, ghost kinds: set<Kind>) returns (ok: bool)
      requires Valid() && Kept(slots, kinds) && (call.Start? || call.Update? ==> Wanted(call.c, kinds))
      modifies this
      ensures Valid() && Kept(slots, kinds) && (old(closed) ==> closed)
      ensures !closed ==> Performed(old(slots), slots, call, ok)
    {
      Drift(kinds);
      if closed && (call.Start? || call.Update?) { return false; }
      ghost var drifted := slots;
      var luck: Luck := *;
      LifecycleContract(slots, call, luck);
      DoKeeps(slots, call, luck, kinds);
      var done := Do(slots, call, luck);
      slots, ok := done.slots, done.ok;
      if !closed { DriftedPerformed(old(slots), drifted, slots, call, ok); }
      var shut: bool := *;
      if shut && !closed {
        Shutdown();
        ok := *;
      }
    }

    /** The next call of one of the steps: of the first that is not done, or of any when all run at once. */
    method RunCall(steps: seq<Step>, parallel: bool, undoing: bool, left: seq<nat>, results: seq<Option<Call>>,
                   ghost start: Slots, ghost kinds: set<Kind>)
      returns (after: seq<nat>, told: seq<Option<Call>>)
      requires WellFormedPhase(steps, kinds) && Valid() && Kept(slots, kinds)
      requires Shaped(steps, undoing, left, results) && exists i :: 0 <= i < |left| && left[i] > 0
      requires !closed ==> Underway(steps, undoing, left, results, start, slots) && Beside(StepIds(steps), start, slots)
      modifies this
      ensures Valid() && Kept(slots, kinds) && (old(closed) ==> closed)
      ensures Shaped(steps, undoing, after, told) && Total(after) < Total(left)
      ensures !closed ==> Underway(steps, undoing, after, told, start, slots) && Beside(StepIds(steps), start, slots)
    {
      FirstPending(left);
      var i :| 0 <= i < |left| && left[i] > 0 && (parallel || forall j | 0 <= j < i :: left[j] == 0);
      var call := steps[i].NextCall(undoing, left[i]);
      CallFits(steps[i], undoing, left[i], kinds);
      var ok := Perform(call, kinds);
      var n := if ok then left[i] - 1 else 0;
      after, told := left[i := n], results[i := if ok then results[i] else Some(call)];
      TotalDrops(left, i, n);
      ShapedStill(steps, undoing, left, results, i, ok, kinds);
      if !closed {
        Advance(steps, undoing, left, results, start, old(slots), slots, i, ok, kinds);
        BesideStep(steps, i, start, old(slots), slots);
      }
    }

    /**
      Runs the calls of every step, up to its first that fails: one step after the other, or all
      at once, in any interleaving of their calls.
    */
    method RunSteps(steps: seq<Step>, parallel: bool, undoing: bool, ghost kinds: set<Kind>) returns (errs: seq<Call>)
      requires WellFormedPhase(steps, kinds) && Valid() && Kept(slots, kinds)
      modifies this
      ensures Valid() && Kept(slots, kinds) && (old(closed) ==> closed)
      ensures !closed && errs == [] ==> Achieved(slots, steps, undoing, kinds)
      ensures !closed && errs == [] ==> Freed(old(slots), slots, steps, undoing)
      ensures !closed ==> Beside(StepIds(steps), old(slots), slots)
      ensures forall e | e in errs :: exists i | 0 <= i < |steps| :: e in steps[i].Calls(undoing)
      ensures !closed ==> forall e | e in errs && !e.Refuse? :: !Inert(old(slots), e.Id())
    {
      var results: seq<Option<Call>> := seq(|steps|, _ => None);
      var left: seq<nat> := seq(|steps|, i requires 0 <= i < |steps| => |steps[i].Calls(undoing)|);
      while exists i :: 0 <= i < |left| && left[i] > 0
        invariant Shaped(steps, undoing, left, results) && Valid() && Kept(slots, kinds)
        invariant old(closed) ==> closed
        invariant !closed ==> Underway(steps, undoing, left, results, old(slots), slots)
        invariant !closed ==> Beside(StepIds(steps), old(slots), slots)
        decreases Total(left)
      {
        left, results := RunCall(steps, parallel, undoing, left, results, old(slots), kinds);
      }
      errs := Failures(results);
      forall e | e in errs
        ensures exists i | 0 <= i < |steps| :: e in steps[i].Calls(undoing)
        ensures !closed && !e.Refuse? ==> !Inert(old(slots), e.Id())
      {
        var i :| 0 <= i < |results| && results[i] == Some(e);
        FailedCall(steps, undoing, left, results, i, old(slots), slots, closed, kinds);
      }
    }

    /**
      Starts what the plan adds, then replaces what it updates, then drains and stops what it
      removes; when a phase fails, undoes it and those before it, the last first.
    */
    method ReconcileWithRollback(d: Diff, ghost target: Table, ghost kinds: set<Kind>) returns (r: Outcome)
      requires IsPlan(d, d.previous, target) && WellKeyed(d.previous, kinds) && WellKeyed(target, kinds)
      requires Valid() && Kept(slots, kinds) && (!closed ==> Current(d, target, slots))
      modifies this
      ensures Valid() && Kept(slots, kinds) && (old(closed) ==> closed)
      ensures r.Applied? && !closed ==> Running(slots) == target - Missed(d, old(slots))
      ensures r.Failed? ==> r.forward != [] && FailedIn(d, r.forward, r.Phase())
      ensures r.Failed? && !closed ==> Fallible(d, r.Phase(), old(slots))
      ensures !closed ==> Beside(Touched(d, if r.Applied? then 2 else r.Phase()), old(slots), slots)
      ensures r.RolledBack() && !closed ==> Restored(d, r.Phase(), old(slots), slots)
      ensures r.RolledBack() && !closed ==> slots.Keys <= old(slots).Keys + d.previous.Keys
    {
      var phases := Phases(d);
      PhasesFit(d, target, kinds);
      var touched: seq<seq<Step>>, forward: seq<Call>, i := [], [], 0;
      while i < |phases| && forward == []
        invariant i <= |phases| && touched == phases[..i] && Valid() && Kept(slots, kinds)
        invariant old(closed) ==> closed
        invariant !closed ==> Beside(PhaseIds(phases, i), old(slots), slots)
        invariant !closed && forward == [] ==> forall k | 0 <= k < i :: Achieved(slots, phases[k], false, kinds)
        invariant !closed && i > 0 ==> Achieved(slots, phases[0], false, kinds)
        invariant forward != [] ==> i > 0 && FailedIn(d, forward, i - 1) && (!closed ==> Fallible(d, i - 1, old(slots)))
        decreases |phases| - i
      {
        ghost var before := slots;
        forward := RunSteps(phases[i], i > 0, false, kinds);
        ForwardCalls(d, i, forward);
        if !closed {
          BesidePhases(phases, i, old(slots), before, slots, kinds);
          AchievedKept(phases, i, false, before, slots, kinds);
          if forward != [] {
            FailsWhere(d, i, forward[0], old(slots), before, target, kinds);
            FirstSucceeds(d, target, old(slots));
          }
        }
        touched := touched + [phases[i]];
        i := i + 1;
      }
      PhaseIdsTouched(d, i);
      if forward == [] {
        if !closed { AllAchieved(d, target, old(slots), slots, kinds); }
        return Applied;
      }
      var undo := Rollback(d, touched, old(slots), target, kinds);
      r := Failed(forward, undo);
    }

    /** Undoes the touched phases, the last first. */
    method Rollback(d: Diff, touched: seq<seq<Step>>, ghost start: Slots, ghost target: Table, ghost kinds: set<Kind>)
        returns (undo: seq<Call>)
      requires IsPlan(d, d.previous, target) && Separate(Phases(d), kinds)
      requires 1 <= |touched| <= 3 && touched == Phases(d)[..|touched|]
      requires Valid() && Kept(slots, kinds) && (!closed ==> Beside(PhaseIds(Phases(d), |touched|), start, slots))
      requires !closed ==> Achieved(slots, Phases(d)[0], false, kinds)
      modifies this
      ensures Valid() && Kept(slots, kinds) && (old(closed) ==> closed)
      ensures !closed ==> Beside(PhaseIds(Phases(d), |touched|), start, slots)
      ensures !closed && undo == [] ==> Restored(d, |touched| - 1, start, slots)
      ensures !closed && undo == [] ==> slots.Keys <= start.Keys + d.previous.Keys
    {
      ghost var phases := Phases(d);
      var i := |touched|;
      undo := [];
      while i > 0
        invariant 0 <= i <= |touched| && Valid() && Kept(slots, kinds)
        invariant old(closed) ==> closed
        invariant !closed ==> Beside(PhaseIds(phases, |touched|), start, slots)
        invariant !closed && undo == [] ==> forall k | i <= k < |touched| :: Achieved(slots, phases[k], true, kinds)
        invariant !closed && i > 0 ==> Achieved(slots, phases[0], false, kinds)
        invariant !closed && i == 0 && undo == [] ==> Ids(d.added) !! slots.Keys
      {
        i := i - 1;
        ghost var before := slots;
        ReversedFits(touched[i], kinds);
        var errs := RunSteps(Reversed(touched[i]), i > 0, true, kinds);
        if !closed {
          if errs == [] { ReversedAchieved(touched[i], true, slots, kinds); }
          BesideUndone(phases, i, |touched|, start, before, slots);
          if i > 0 { FirstKept(phases, i, before, slots, kinds); }
          else if errs == [] { AddedFreed(d, before, slots, kinds); }
          AchievedKeptLater(phases, i, |touched|, true, before, slots, kinds);
        }
        undo := undo + errs;
      }
      PhaseIdsTouched(d, |touched|);
      if undo == [] && !closed {
        AllUndone(d, |touched|, start, slots, target, kinds);
        NoneNew(d, |touched|, start, slots, target);
      }
    }
  }

  /** The calls are of the phase. */
  predicate FailedIn(d: Diff, calls: seq<Call>, k: nat) {
    forall e | e in calls :: PhaseOf(e) == k && e.Id() in InPhase(d, k)
  }

  lemma {:induction false} DriftedStill(s: Slots, t: Slots, kinds: set<Kind>)
    requires Drifted(s, t) && Kept(s, kinds)
    ensures Kept(t, kinds) && (NoneLive(s) ==> NoneLive(t))
  {
    forall id | id in t ensures id in s && t[id].collector == s[id].collector
      && (t[id].stage.Live? ==> s[id].stage.Live?) {}
  }

  lemma {:induction false} DriftedPerformed(s: Slots, drifted: Slots, t: Slots, call: Call, ok: bool)
    requires Drifted(s, drifted) && Performed(drifted, t, call, ok)
    ensures Performed(s, t, call, ok)
  {
    DriftedBeside(s, drifted);
    assert Inert(s, call.Id()) ==> Inert(drifted, call.Id());
  }

  /** What ran under the ID of a step that is to leave nothing there has left it free. */
  ghost predicate Freed(start: Slots, s: Slots, steps: seq<Step>, undoing: bool) {
    forall i | 0 <= i < |steps| && Stops(steps[i].Calls(undoing)) && Runs(start, steps[i].id).Some? ::
      steps[i].id !in s
  }

  /** The calls end with a stop. */
  predicate Stops(calls: seq<Call>) {
    calls != [] && calls[|calls| - 1].Stop?
  }

  /** How many of a step's calls are left, and what failed of them. */
  ghost predicate Shaped(steps: seq<Step>, undoing: bool, left: seq<nat>, results: seq<Option<Call>>) {
    && |results| == |steps| == |left|
    && (forall i | 0 <= i < |steps| :: left[i] <= |steps[i].Calls(undoing)|)
    && (forall i | 0 <= i < |steps| :: results[i].Some? ==> results[i].value in steps[i].Calls(undoing))
  }

  lemma {:induction false} ShapedStill(steps: seq<Step>, undoing: bool, left: seq<nat>, results: seq<Option<Call>>,
      i: nat, ok: bool, kinds: set<Kind>)
    requires WellFormedPhase(steps, kinds) && Shaped(steps, undoing, left, results) && i < |steps| && left[i] > 0
    ensures Shaped(steps, undoing, left[i := if ok then left[i] - 1 else 0],
                   results[i := if ok then results[i] else Some(steps[i].NextCall(undoing, left[i]))])
  {
    CallFits(steps[i], undoing, left[i], kinds);
  }

  /** A step that is done has what it was to leave, and one that failed had something to wait for. */
  ghost predicate Pending(step: Step, undoing: bool, left: nat, result: Option<Call>, start: Slots, s: Slots) {
    var calls := step.Calls(undoing);
    && (calls != [] && left == 0 && result.None? ==> Runs(s, step.id) == Goal(calls))
    && (result.None? && left > 0 && Inert(start, step.id) ==> Inert(s, step.id))
    && (result.Some? && !result.value.Refuse? ==> !Inert(start, step.id))
    && (Stops(calls) && result.None? && Runs(start, step.id).Some? ==>
          if left > 0 then Runs(s, step.id).Some? else step.id !in s)
    && (left > 0 ==> result.None?)
  }

  ghost predicate Underway(steps: seq<Step>, undoing: bool, left: seq<nat>, results: seq<Option<Call>>, start: Slots,
      s: Slots)
    requires |results| == |steps| == |left|
  {
    forall i | 0 <= i < |steps| :: Pending(steps[i], undoing, left[i], results[i], start, s)
  }

  lemma {:induction false} FailedCall(steps: seq<Step>, undoing: bool, left: seq<nat>, results: seq<Option<Call>>,
      i: nat, start: Slots, s: Slots, closed: bool, kinds: set<Kind>)
    requires WellFormedPhase(steps, kinds) && Shaped(steps, undoing, left, results) && i < |steps| && results[i].Some?
    requires !closed ==> Underway(steps, undoing, left, results, start, s)
    ensures results[i].value in steps[i].Calls(undoing)
    ensures !closed && !results[i].value.Refuse? ==> !Inert(start, results[i].value.Id())
  {
    assert WellFormed(steps[i].Calls(undoing), steps[i].id, kinds);
    if !closed { assert Pending(steps[i], undoing, left[i], results[i], start, s); }
  }

  lemma {:induction false} CallFits(step: Step, undoing: bool, left: nat, kinds: set<Kind>)
    requires 0 < left <= |step.Calls(undoing)| && WellFormed(step.Calls(undoing), step.id, kinds)
    ensures var call := step.NextCall(undoing, left);
      && call in step.Calls(undoing) && call.Id() == step.id && (call.Start? || call.Update? ==> Wanted(call.c, kinds))
      && (left == 1 ==> !call.Drain? && Goal([call]) == Goal(step.Calls(undoing)))
      && (left > 1 ==> call.Drain?)
  {
  }

  /** A call of step i brings that step on and leaves the others where they were. */
  lemma {:induction false} Advance(steps: seq<Step>, undoing: bool, left: seq<nat>, results: seq<Option<Call>>,
                                   start: Slots, s: Slots, t: Slots, i: nat, ok: bool, kinds: set<Kind>)
    requires WellFormedPhase(steps, kinds) && Shaped(steps, undoing, left, results)
    requires Underway(steps, undoing, left, results, start, s)
    requires i < |steps| && 0 < left[i] && Performed(s, t, steps[i].NextCall(undoing, left[i]), ok)
    ensures Underway(steps, undoing, left[i := if ok then left[i] - 1 else 0],
                     results[i := if ok then results[i] else Some(steps[i].NextCall(undoing, left[i]))], start, t)
  {
    CallFits(steps[i], undoing, left[i], kinds);
    assert Pending(steps[i], undoing, left[i], results[i], start, s);
    forall j | 0 <= j < |steps| && j != i ensures Pending(steps[j], undoing, left[j], results[j], start, t) {
      assert Pending(steps[j], undoing, left[j], results[j], start, s);
      assert steps[j].id != steps[i].id;
    }
  }

  lemma {:induction false} BesideStep(steps: seq<Step>, i: nat, start: Slots, s: Slots, t: Slots)
    requires i < |steps| && Beside(StepIds(steps), start, s) && Beside({steps[i].id}, s, t)
    ensures Beside(StepIds(steps), start, t)
  {
    assert steps[i].id in StepIds(steps);
  }

  lemma {:induction false} BesidePhases(phases: seq<seq<Step>>, i: nat, start: Slots, s: Slots, t: Slots,
      kinds: set<Kind>)
    requires i < |phases| && Beside(PhaseIds(phases, i), start, s) && Beside(StepIds(phases[i]), s, t)
    ensures Beside(PhaseIds(phases, i + 1), start, t)
  {
  }

  lemma {:induction false} BesideUndone(phases: seq<seq<Step>>, i: nat, n: nat, start: Slots, s: Slots, t: Slots)
    requires i < n <= |phases| && Beside(PhaseIds(phases, n), start, s) && Beside(StepIds(phases[i]), s, t)
    ensures Beside(PhaseIds(phases, n), start, t)
  {
    PhaseIn(phases, i, n);
  }

  lemma {:induction false} PhaseIn(phases: seq<seq<Step>>, i: nat, n: nat)
    requires i < n <= |phases|
    ensures StepIds(phases[i]) <= PhaseIds(phases, n)
  {
    if i < n - 1 { PhaseIn(phases, i, n - 1); }
  }

  /** A phase that failed had something to wait for when the plan was made. */
  lemma {:induction false} FailsWhere(d: Diff, i: nat, e: Call, start: Slots, s: Slots, target: Table, kinds: set<Kind>)
    requires i < 3 && Separate(Phases(d), kinds) && e.Id() in InPhase(d, i) && !Inert(s, e.Id())
    requires Beside(PhaseIds(Phases(d), i), start, s)
    ensures Fallible(d, i, start)
  {
    StepIdsOf(d);
    PhasesApart(Phases(d), i, i, kinds);
    assert e.Id() !in PhaseIds(Phases(d), i);
  }

  lemma {:induction false} PhasesApart(phases: seq<seq<Step>>, i: nat, k: nat, kinds: set<Kind>)
    requires Separate(phases, kinds) && k <= i < |phases|
    ensures PhaseIds(phases, k) !! StepIds(phases[i])
  {
    if k > 0 { PhasesApart(phases, i, k - 1, kinds); }
  }

  lemma {:induction false} FirstPending(left: seq<nat>)
    requires exists i :: 0 <= i < |left| && left[i] > 0
    ensures exists i | 0 <= i < |left| :: left[i] > 0 && forall j | 0 <= j < i :: left[j] == 0
  {
    if left[0] == 0 {
      var i :| 0 <= i < |left| && left[i] > 0;
      assert left[1..][i - 1] == left[i];
      FirstPending(left[1..]);
      var k :| 0 <= k < |left[1..]| && left[1..][k] > 0 && forall j | 0 <= j < k :: left[1..][j] == 0;
      forall j | 0 <= j < k + 1 ensures left[j] == 0 {
        if j > 0 { assert left[j] == left[1..][j - 1]; }
      }
      assert left[k + 1] == left[1..][k];
    }
  }
}
