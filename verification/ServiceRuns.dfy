/**
  Whole reloads on runs of the supervisors' machine: a reload is a step of the service, and so
  what holds over every sequence of reloads holds over every run of the machine.
*/
module ServiceRuns {
  import opened Basics
  import opened Supervisor
  import opened Refinement
  import opened CallRuns
  import C = Collectors
  import K = Reconcile
  import E = Executions
  import R = Reloading

  // ------------------------------------------------------------ a reload

  /** What was called for one ID, and how the calls returned: forward, and undoing it. */
  datatype Story = Story(forward: seq<Told>, undo: seq<Told>) {
    function All(): seq<Told> {
      forward + undo
    }
  }

  type Stories = map<Id, Story>

  predicate Succeeded(told: seq<Told>) {
    told != [] && told[|told| - 1].ok
  }

  /** The calls of a step up to its first that failed. */
  predicate Tried(told: seq<Told>, calls: seq<C.Call>) {
    && told != [] && |told| <= |calls|
    && (forall n | 0 <= n < |told| :: told[n].call == calls[n])
    && (forall n | 0 <= n < |told| - 1 :: told[n].ok)
    && (Succeeded(told) ==> |told| == |calls|)
  }

  /** The ID's calls are those of its phase; when the reload fails in phase k, they are undone. */
  ghost predicate StoryFits(d: C.Diff, target: C.Table, p: nat, k: nat, id: Id, story: Story, applied: bool)
    requires C.IsPlan(d, d.previous, target) && p <= 2 && id in K.InPhase(d, p)
  {
    && Tried(story.forward, E.CallsOn(d, target, E.Leg(p, false, None), id))
    && (p < k || applied ==> Succeeded(story.forward))
    && if applied then story.undo == [] else Tried(story.undo, E.CallsOn(d, target, E.Leg(p, true, None), id))
  }

  ghost predicate StoriesFit(d: C.Diff, target: C.Table, k: nat, stories: Stories, applied: bool)
    requires C.IsPlan(d, d.previous, target) && k <= 2
  {
    && stories.Keys == K.Touched(d, k)
    && forall p, id | 0 <= p <= k && id in K.InPhase(d, p) ::
         id in stories && StoryFits(d, target, p, k, id, stories[id], applied)
  }

  /** The outcome names the calls that failed, and has no rollback error exactly when all was undone. */
  ghost predicate OutcomeFits(d: C.Diff, k: nat, stories: Stories, r: K.Outcome) {
    match r
    case Applied => k == 2
    case Failed(forward, rollback) =>
      && forward != [] && (forall call | call in forward :: FailedBy(d, k, stories, call))
      && (rollback == [] <==> forall id | id in stories :: Succeeded(stories[id].undo))
  }

  ghost predicate FailedBy(d: C.Diff, k: nat, stories: Stories, call: C.Call) {
    exists id | id in stories :: id in K.InPhase(d, k) && FailedWith(stories[id].forward, call)
  }

  predicate FailedWith(told: seq<Told>, call: C.Call) {
    told != [] && told[|told| - 1] == Told(call, false)
  }

  /** What the health check of a collector that is left alone says. */
  predicate Restarts(s: State, id: Id) {
    id in s.items && s.items[id] in s.entries && !s.entries[s.items[id]].phase.Running?
  }

  function ToldOf(stories: Stories, id: Id): seq<Told> {
    if id in stories then stories[id].All() else []
  }

  /**
    From i to j the machine does a reload by the plan.  What is registered is read at i, and the
    health of what is left alone at some time later; the calls on an ID come one after the other,
    those on different IDs in any interleaving.  Nothing is said of calls when a shutdown came.
  */
  ghost predicate ReloadOver(run: seq<State>, steps: seq<Step>, i: nat, j: nat, d: C.Diff, target: C.Table, k: nat,
      stories: Stories, r: K.Outcome)
  {
    && i <= j < |run| && k <= 2
    && C.IsPlan(d, C.Registered(Slots(run[i])), target)
    && StoriesFit(d, target, k, stories, r.Applied?) && OutcomeFits(d, k, stories, r)
    && (!run[j].closed ==>
          && (forall id | id in d.same :: Spared(run, i, j, id))
          && (forall id :: CallsOver(run, steps, i, j, id, ToldOf(stories, id))))
  }

  /** At some time the health check of the ID did not ask for a restart. */
  ghost predicate Spared(run: seq<State>, i: nat, j: nat, id: Id)
    requires i <= j < |run|
  {
    exists m: nat | i <= m <= j :: !Restarts(run[m], id)
  }

  // ------------------------------------------------------------ what is left alone

  lemma {:induction false} StretchParts(run: seq<State>, steps: seq<Step>, i: nat, m: nat, j: nat, id: Id)
    requires Stretch(run, steps, i, j, id) && i <= m <= j
    ensures Stretch(run, steps, i, m, id) && Stretch(run, steps, m, j, id)
  {
  }

  /** A collector that the check spares is live, or registered no more. */
  lemma {:induction false} SparedAt(s: State, id: Id)
    requires Inv(s) && !Restarts(s, id) && id in Slots(s)
    ensures Slots(s)[id].stage.Live?
  {
    assert PhaseOk(s.entries[s.items[id]]);
  }

  /** What is left alone was live when it was read, or stopping, and then it is registered no more. */
  lemma {:induction false} SparedSince(run: seq<State>, steps: seq<Step>, i: nat, j: nat, id: Id)
    requires Chain(run, steps) && i <= j < |run| && Stretch(run, steps, i, j, id) && Spared(run, i, j, id)
    requires id in Slots(run[i])
    ensures Slots(run[i])[id].stage.Live? || (Slots(run[i])[id].stage == C.Stuck(true) && id !in Slots(run[j]))
  {
    var m: nat :| i <= m <= j && !Restarts(run[m], id);
    StretchParts(run, steps, i, m, j, id);
    StretchDrifts(run, steps, i, m, id);
    StretchDrifts(run, steps, m, j, id);
    ChainInv(run, steps, m);
    if id in Slots(run[m]) { SparedAt(run[m], id); }
  }

  lemma {:induction false} SparedIsStretch(run: seq<State>, steps: seq<Step>, i: nat, j: nat, d: C.Diff,
      target: C.Table, k: nat, stories: Stories, r: K.Outcome, id: Id)
    requires ReloadOver(run, steps, i, j, d, target, k, stories, r) && !run[j].closed && id in d.same
    ensures Stretch(run, steps, i, j, id) && Spared(run, i, j, id) && id in Slots(run[i])
  {
    assert id in C.Registered(Slots(run[i])) && id !in stories;
    assert CallsOver(run, steps, i, j, id, ToldOf(stories, id));
  }

  /** So the plan is one that the service may have made, and what it missed is free. */
  lemma {:induction false} PlanRead(run: seq<State>, steps: seq<Step>, i: nat, j: nat, d: C.Diff, target: C.Table,
      k: nat, stories: Stories, r: K.Outcome)
    requires Chain(run, steps) && ReloadOver(run, steps, i, j, d, target, k, stories, r) && !run[j].closed
    ensures R.PlanFor(d, Slots(run[i]), target) && Slots(run[j]).Keys !! K.Missed(d, Slots(run[i]))
  {
    forall id | id in d.same
      ensures id in Slots(run[i])
      ensures Slots(run[i])[id].stage.Live? || (Slots(run[i])[id].stage == C.Stuck(true) && id !in Slots(run[j]))
    {
      SparedIsStretch(run, steps, i, j, d, target, k, stories, r, id);
      SparedSince(run, steps, i, j, id);
    }
  }

  // ------------------------------------------------------------ what the calls on an ID leave

  lemma {:induction false} CallsAreOn(run: seq<State>, steps: seq<Step>, i: nat, j: nat, id: Id, told: seq<Told>)
    requires CallsOver(run, steps, i, j, id, told)
    ensures AllOn(told, id)
    decreases |told|
  {
    if told != [] {
      var b: nat, e: nat :|
        OverFirst(run, steps, i, b, e, j, id, told[0]) && CallsOver(run, steps, e, j, id, told[1..]);
      CallsAreOn(run, steps, e, j, id, told[1..]);
      forall t | t in told ensures t.call.Id() == id { assert t == told[0] || t in told[1..]; }
    }
  }

  /** The story of an ID ends with what its last call was to leave, if that succeeded. */
  lemma {:induction false} StoryEnds(run: seq<State>, steps: seq<Step>, i: nat, j: nat, id: Id, told: seq<Told>)
    requires Chain(run, steps) && CallsOver(run, steps, i, j, id, told) && i <= j < |run| && !run[j].closed
    ensures told == [] ==> C.Runs(Slots(run[j]), id) == C.Runs(Slots(run[i]), id)
    ensures told == [] && id !in Slots(run[i]) ==> id !in Slots(run[j])
    ensures Succeeded(told) && !told[|told| - 1].call.Drain? ==>
      C.Runs(Slots(run[j]), id) == C.Goal([told[|told| - 1].call])
  {
    CallsAreOn(run, steps, i, j, id, told);
    CallsLead(run, steps, i, j, id, told);
    AloneRuns(run[i], id);
    AloneRuns(run[j], id);
    if Succeeded(told) && !told[|told| - 1].call.Drain? {
      LeadsGoal(Alone(run[i], id), told, Alone(run[j], id), id);
    }
  }

  lemma {:induction false} AloneRuns(s: State, id: Id)
    ensures C.Runs(Alone(s, id), id) == C.Runs(Slots(s), id) && C.Inert(Alone(s, id), id) == C.Inert(Slots(s), id)
    ensures id in Alone(s, id) <==> id in Slots(s)
  {
  }

  /** The phase that deals with a touched ID, and its calls. */
  lemma {:induction false} PhaseTouching(d: C.Diff, target: C.Table, k: nat, id: Id) returns (p: nat)
    requires C.IsPlan(d, d.previous, target) && k <= 2 && id in K.Touched(d, k)
    ensures p <= k && id in K.InPhase(d, p)
    ensures var calls := E.CallsOn(d, target, E.Leg(p, false, None), id);
      && calls != [] && !calls[|calls| - 1].Drain? && C.Goal([calls[|calls| - 1]]) == K.At(target, id)
    ensures var calls := E.CallsOn(d, target, E.Leg(p, true, None), id);
      |calls| == 1 && !calls[0].Drain? && C.Goal(calls) == K.At(d.previous, id)
  {
    p := if id in C.Ids(d.added) then 0 else if id in C.Ids(d.updated) then 1 else 2;
  }

  lemma {:induction false} TriedLast(told: seq<Told>, calls: seq<C.Call>)
    requires Tried(told, calls) && Succeeded(told)
    ensures told[|told| - 1].call == calls[|calls| - 1]
  {
  }

  /** Once a reload has applied, a touched ID runs what the target has. */
  lemma {:induction false} AppliedAt(run: seq<State>, steps: seq<Step>, i: nat, j: nat, d: C.Diff, target: C.Table,
      k: nat, stories: Stories, id: Id)
    requires Chain(run, steps) && ReloadOver(run, steps, i, j, d, target, k, stories, K.Applied) && !run[j].closed
    ensures C.Runs(Slots(run[j]), id) == if id in K.Touched(d, 2) then K.At(target, id) else C.Runs(Slots(run[i]), id)
  {
    var told := ToldOf(stories, id);
    assert CallsOver(run, steps, i, j, id, told);
    StoryEnds(run, steps, i, j, id, told);
    if id in stories {
      var p := PhaseTouching(d, target, k, id);
      assert StoryFits(d, target, p, k, id, stories[id], true);
      assert told == stories[id].forward;
      TriedLast(told, E.CallsOn(d, target, E.Leg(p, false, None), id));
    }
  }

  /** Once all is undone, a touched ID runs what it ran, and an added one is free. */
  lemma {:induction false} UndoneAt(run: seq<State>, steps: seq<Step>, i: nat, j: nat, d: C.Diff, target: C.Table,
      k: nat, stories: Stories, r: K.Outcome, id: Id)
    requires Chain(run, steps) && ReloadOver(run, steps, i, j, d, target, k, stories, r) && !run[j].closed
    requires r.Failed? && r.rollback == []
    ensures C.Runs(Slots(run[j]), id) ==
      if id in K.Touched(d, k) then K.At(d.previous, id) else C.Runs(Slots(run[i]), id)
    ensures id in Slots(run[j]) ==> id in Slots(run[i])
  {
    var told := ToldOf(stories, id);
    assert CallsOver(run, steps, i, j, id, told);
    StoryEnds(run, steps, i, j, id, told);
    if id in stories {
      var p := PhaseTouching(d, target, k, id);
      assert StoryFits(d, target, p, k, id, stories[id], false);
      var undo := stories[id].undo;
      assert told[|told| - 1] == undo[|undo| - 1];
      TriedLast(undo, E.CallsOn(d, target, E.Leg(p, true, None), id));
      if p == 0 {
        AddedIsFreed(run, steps, i, j, d, target, k, stories, r, id);
      } else {
        assert id in C.Registered(Slots(run[i]));
      }
    }
  }

  lemma {:induction false} AddedIsFreed(run: seq<State>, steps: seq<Step>, i: nat, j: nat, d: C.Diff, target: C.Table,
      k: nat, stories: Stories, r: K.Outcome, id: Id)
    requires Chain(run, steps) && ReloadOver(run, steps, i, j, d, target, k, stories, r) && !run[j].closed
    requires r.Failed? && r.rollback == [] && id in stories && id in K.InPhase(d, 0)
    ensures id !in Slots(run[j])
  {
    assert StoryFits(d, target, 0, k, id, stories[id], false);
    var told := ToldOf(stories, id);
    assert CallsOver(run, steps, i, j, id, told);
    CallsLead(run, steps, i, j, id, told);
    assert id !in C.Registered(Slots(run[i]));
    AloneRuns(run[i], id);
    assert stories[id].forward == [told[0]] && stories[id].undo == [told[1]];
    LeadsFreed(Alone(run[i], id), told, Alone(run[j], id), target[id]);
  }

  /** A call fails only where there was something to wait for. */
  lemma {:induction false} FailedWaited(run: seq<State>, steps: seq<Step>, i: nat, j: nat, d: C.Diff, target: C.Table,
      k: nat, stories: Stories, r: K.Outcome, call: C.Call)
    requires Chain(run, steps) && ReloadOver(run, steps, i, j, d, target, k, stories, r) && !run[j].closed
    requires r.Failed? && FailedBy(d, k, stories, call)
    ensures K.Fallible(d, k, Slots(run[i]))
  {
    var id :| id in stories && id in K.InPhase(d, k) && FailedWith(stories[id].forward, call);
    assert StoryFits(d, target, k, k, id, stories[id], false);
    DrainsBefore(d, target, k, id, stories[id], call);
    assert CallsOver(run, steps, i, j, id, ToldOf(stories, id));
    StoryWaited(run, steps, i, j, id, ToldOf(stories, id), |stories[id].forward| - 1);
  }

  /** The call of a step that failed comes after drains alone. */
  lemma {:induction false} DrainsBefore(d: C.Diff, target: C.Table, k: nat, id: Id, story: Story, call: C.Call)
    requires C.IsPlan(d, d.previous, target) && k <= 2 && id in K.InPhase(d, k)
    requires Tried(story.forward, E.CallsOn(d, target, E.Leg(k, false, None), id)) && FailedWith(story.forward, call)
    ensures var n := |story.forward| - 1;
      && n < |story.All()| && story.All()[n] == Told(call, false) && !call.Refuse?
      && forall m | 0 <= m < n :: story.All()[m].call.Drain?
  {
    var n := |story.forward| - 1;
    assert story.forward[n].call == E.CallsOn(d, target, E.Leg(k, false, None), id)[n];
    forall m | 0 <= m < n ensures story.All()[m].call.Drain? {
      assert story.forward[m].call == E.CallsOn(d, target, E.Leg(k, false, None), id)[m];
    }
  }

  lemma {:induction false} StoryWaited(run: seq<State>, steps: seq<Step>, i: nat, j: nat, id: Id, told: seq<Told>,
      n: nat)
    requires Chain(run, steps) && CallsOver(run, steps, i, j, id, told) && i <= j < |run| && !run[j].closed
    requires n < |told| && !told[n].ok && !told[n].call.Refuse? && forall m | 0 <= m < n :: told[m].call.Drain?
    ensures !C.Inert(Slots(run[i]), id)
  {
    CallsAreOn(run, steps, i, j, id, told);
    CallsLead(run, steps, i, j, id, told);
    AloneRuns(run[i], id);
    if C.Inert(Slots(run[i]), id) {
      LeadsInert(Alone(run[i], id), told, Alone(run[j], id), id, n);
      assert false;
    }
  }

  /** The failed calls are of the phase that failed. */
  lemma {:induction false} FailedCalls(d: C.Diff, target: C.Table, k: nat, stories: Stories, call: C.Call)
    requires C.IsPlan(d, d.previous, target) && k <= 2 && StoriesFit(d, target, k, stories, false)
    requires FailedBy(d, k, stories, call)
    ensures K.PhaseOf(call) == k && call.Id() in K.InPhase(d, k)
  {
    var id :| id in stories && id in K.InPhase(d, k) && FailedWith(stories[id].forward, call);
    assert StoryFits(d, target, k, k, id, stories[id], false);
    var told := stories[id].forward;
    assert told[|told| - 1].call == E.CallsOn(d, target, E.Leg(k, false, None), id)[|told| - 1];
  }

  // ------------------------------------------------------------ collectors of the service's kinds

  /** The step launches no collector that is disabled or of another kind. */
  predicate Wants(kinds: set<C.Kind>, step: Step) {
    && (step.StartNew? ==> C.Wanted(step.collector, kinds))
    && (step.UpdateBegin? ==> C.Wanted(step.collector, kinds))
  }

  predicate EntryWanted(kinds: set<C.Kind>, e: Entry) {
    e.collector.id == e.id && C.Wanted(e.collector, kinds)
  }

  predicate OpWanted(kinds: set<C.Kind>, op: Op) {
    op.Updating? ==> C.Wanted(op.collector, kinds)
  }

  ghost predicate AllWanted(kinds: set<C.Kind>, s: State) {
    && (forall h | h in s.entries :: EntryWanted(kinds, s.entries[h]))
    && (forall pid | pid in s.ops :: OpWanted(kinds, s.ops[pid]))
  }

  lemma {:induction false} WantedKeptBySupervisor(kinds: set<C.Kind>, s: State, step: Step)
    requires Enabled(s, step) && Supervises(step) && AllWanted(kinds, s)
    ensures AllWanted(kinds, Next(s, step))
  {
    var e := s.entries[step.entry];
    assert EntryWanted(kinds, e);
    assert EntryWanted(kinds, Own(e, ContextOver(s, step.entry), Registered(s, e.id) == Some(step.entry), step));
  }

  lemma {:induction false} WantedKept(kinds: set<C.Kind>, s: State, step: Step)
    requires Enabled(s, step) && AllWanted(kinds, s) && Wants(kinds, step)
    ensures AllWanted(kinds, Next(s, step))
  {
    if Supervises(step) { WantedKeptBySupervisor(kinds, s, step); }
    else if step.UpdateEnd? { assert OpWanted(kinds, s.ops[step.pid]); }
  }

  /** What a reload may count on in every state: what is registered is wanted, and once closed nothing is live. */
  lemma {:induction false} SoundAt(kinds: set<C.Kind>, s: State)
    requires Inv(s) && AllWanted(kinds, s)
    ensures C.Kept(Slots(s), kinds) && (s.closed ==> C.NoneLive(Slots(s)))
  {
    forall id | id in Slots(s) ensures Slots(s)[id].collector.id == id && C.Wanted(Slots(s)[id].collector, kinds) {
      assert EntryWanted(kinds, s.entries[s.items[id]]);
    }
  }

  // ------------------------------------------------------------ the steps of the service

  /** The service's view of a state of the machine. */
  function WorldAt(s: State, config: seq<C.Collector>, diverged: bool): R.World {
    R.World(Slots(s), s.closed, config, diverged)
  }

  ghost predicate Views(s: State, w: R.World) {
    w.slots == Slots(s) && w.closed == s.closed
  }

  /** From i to j the machine does what the service's move says. */
  ghost predicate Serves(kinds: set<C.Kind>, run: seq<State>, steps: seq<Step>, i: nat, j: nat,
      w: R.World, m: R.Move, v: R.World)
    requires i <= j < |run| == |steps| + 1
  {
    match m
    case Background => (forall id :: Stretch(run, steps, i, j, id)) && v == w.(slots := v.slots)
    case Shutdown => j == i + 1 && steps[i].ShutdownBegin? && v == w.(slots := v.slots, closed := v.closed)
    case Reloads(candidate, a) =>
      match a
      case Busy => i == j && v == w
      case Invalid => i == j && v == w && candidate.None?
      case Ended(d, r) =>
        && candidate.Some?
        && (exists k: nat, stories :: ReloadOver(run, steps, i, j, d, C.Desired(candidate.value, kinds), k, stories, r))
        && v.config == (if r.Applied? then candidate.value else w.config)
        && v.diverged == (if r.Applied? then false else w.diverged || r.rollback != [])
  }

  lemma {:induction false} ReloadApplies(run: seq<State>, steps: seq<Step>, i: nat, j: nat, d: C.Diff,
      target: C.Table, k: nat, stories: Stories)
    requires Chain(run, steps) && ReloadOver(run, steps, i, j, d, target, k, stories, K.Applied) && !run[j].closed
    ensures R.AppliedBy(d, Slots(run[i]), Slots(run[j]), target)
  {
    var s, t := Slots(run[i]), Slots(run[j]);
    PlanRead(run, steps, i, j, d, target, k, stories, K.Applied);
    forall id ensures C.Runs(t, id) == K.At(target - K.Missed(d, s), id) {
      AppliedAt(run, steps, i, j, d, target, k, stories, id);
      UntouchedRuns(d, s, target, id);
    }
    K.RunningIs(t, target - K.Missed(d, s));
  }

  /** What a plan does not touch is left alone, or neither registered nor wanted. */
  lemma {:induction false} UntouchedRuns(d: C.Diff, s: C.Slots, target: C.Table, id: Id)
    requires R.PlanFor(d, s, target)
    ensures id in K.Touched(d, 2) ==> K.At(target, id) == K.At(target - K.Missed(d, s), id)
    ensures id !in K.Touched(d, 2) ==> C.Runs(s, id) == K.At(target - K.Missed(d, s), id)
  {
    assert d.previous == C.Registered(s);
    if id in K.Touched(d, 2) { assert id !in d.same; }
    else if id in s { assert id in d.same; }
  }

  lemma {:induction false} ReloadFails(run: seq<State>, steps: seq<Step>, i: nat, j: nat, d: C.Diff,
      target: C.Table, k: nat, stories: Stories, r: K.Outcome)
    requires Chain(run, steps) && ReloadOver(run, steps, i, j, d, target, k, stories, r) && r.Failed?
    ensures r.forward != [] && r.Phase() == k && K.FailedIn(d, r.forward, k)
    ensures !run[j].closed ==> R.PlanFor(d, Slots(run[i]), target) && K.Fallible(d, k, Slots(run[i]))
    ensures !run[j].closed && r.rollback == [] ==> R.UndoneBy(d, k, Slots(run[i]), Slots(run[j]))
  {
    forall call | call in r.forward ensures K.PhaseOf(call) == k && call.Id() in K.InPhase(d, k) {
      FailedCalls(d, target, k, stories, call);
    }
    assert r.forward[0] in r.forward;
    if !run[j].closed {
      PlanRead(run, steps, i, j, d, target, k, stories, r);
      FailedWaited(run, steps, i, j, d, target, k, stories, r, r.forward[0]);
      if r.rollback == [] { ReloadUndoes(run, steps, i, j, d, target, k, stories, r); }
    }
  }

  lemma {:induction false} ReloadUndoes(run: seq<State>, steps: seq<Step>, i: nat, j: nat, d: C.Diff,
      target: C.Table, k: nat, stories: Stories, r: K.Outcome)
    requires Chain(run, steps) && ReloadOver(run, steps, i, j, d, target, k, stories, r) && !run[j].closed
    requires r.Failed? && r.rollback == []
    ensures R.UndoneBy(d, k, Slots(run[i]), Slots(run[j]))
  {
    forall id
      ensures C.Runs(Slots(run[j]), id) ==
        if id in K.Touched(d, k) then K.At(d.previous, id) else C.Runs(Slots(run[i]), id)
      ensures id in Slots(run[j]) ==> id in Slots(run[i])
    {
      UndoneAt(run, steps, i, j, d, target, k, stories, r, id);
    }
  }

  /** A whole reload on the machine, with whatever its supervisors do meanwhile, is a reload of the service. */
  lemma {:induction false} ReloadIsStep(kinds: set<C.Kind>, run: seq<State>, steps: seq<Step>, i: nat, j: nat,
      w: R.World, m: R.Move, v: R.World)
    requires Chain(run, steps) && i <= j < |run| && Serves(kinds, run, steps, i, j, w, m, v)
    requires Views(run[i], w) && Views(run[j], v) && AllWanted(kinds, run[j])
    requires m.Reloads? && m.answer.Ended?
    ensures R.Moves(kinds, w, m, v)
  {
    var d, r, target := m.answer.plan, m.answer.outcome, C.Desired(m.candidate.value, kinds);
    var k: nat, stories :| ReloadOver(run, steps, i, j, d, target, k, stories, r);
    ChainInv(run, steps, j);
    SoundAt(kinds, run[j]);
    if run[i].closed { ClosedStays(run, steps, i, j); }
    if r.Failed? {
      ReloadFails(run, steps, i, j, d, target, k, stories, r);
    } else if !run[j].closed {
      ReloadApplies(run, steps, i, j, d, target, k, stories);
    }
  }

  lemma {:induction false} BackgroundDrifts(run: seq<State>, steps: seq<Step>, i: nat, j: nat)
    requires i <= j < |run| && forall id :: Stretch(run, steps, i, j, id)
    ensures C.Drifted(Slots(run[i]), Slots(run[j]))
  {
    forall id ensures DriftAt(SlotAt(run[i], id), SlotAt(run[j], id)) {
      StretchDrifts(run, steps, i, j, id);
    }
    DriftedAt(run[i], run[j]);
  }

  lemma {:induction false} DriftedAt(s: State, t: State)
    requires forall id :: DriftAt(SlotAt(s, id), SlotAt(t, id))
    ensures C.Drifted(Slots(s), Slots(t))
  {
    forall id | id in Slots(t) ensures id in Slots(s) && Slots(t)[id].collector == Slots(s)[id].collector {
      assert DriftAt(SlotAt(s, id), SlotAt(t, id));
    }
    forall id | id in Slots(s) ensures DriftAt(Some(Slots(s)[id]), SlotAt(t, id)) {
      assert DriftAt(SlotAt(s, id), SlotAt(t, id));
    }
  }

  lemma {:induction false} ShutdownCancels(s: State, pid: Pid)
    requires Inv(s) && Enabled(s, ShutdownBegin(pid))
    ensures Slots(Next(s, ShutdownBegin(pid))) == C.CancelAll(Slots(s))
  {
    var t := Next(s, ShutdownBegin(pid));
    forall id | id in s.items
      ensures StageOf(t.entries[t.items[id]]) == C.GivenUp(StageOf(s.entries[s.items[id]]), true)
    {
      assert PhaseOk(s.entries[s.items[id]]);
      assert s.items[id] in s.items.Values;
    }
  }

  lemma {:induction false} ServiceMoves(kinds: set<C.Kind>, run: seq<State>, steps: seq<Step>, i: nat, j: nat,
      w: R.World, m: R.Move, v: R.World)
    requires Chain(run, steps) && i <= j < |run| && Serves(kinds, run, steps, i, j, w, m, v)
    requires Views(run[i], w) && Views(run[j], v) && AllWanted(kinds, run[j])
    ensures R.Moves(kinds, w, m, v)
  {
    if m.Background? {
      BackgroundDrifts(run, steps, i, j);
    } else if m.Shutdown? {
      assert Goes(run, steps, i);
      ShutdownCancels(run[i], steps[i].pid);
    } else if m.answer.Ended? {
      ReloadIsStep(kinds, run, steps, i, j, w, m, v);
    } else {
      ChainInv(run, steps, j);
      SoundAt(kinds, run[j]);
    }
  }

  // ------------------------------------------------------------ every run

  /** A run of the machine that does the service's moves one after the other, from a successful start. */
  ghost predicate ServiceRun(kinds: set<C.Kind>, run: seq<State>, steps: seq<Step>, marks: seq<nat>,
      worlds: seq<R.World>, moves: seq<R.Move>)
  {
    && Chain(run, steps) && AllWanted(kinds, run[0]) && (forall step | step in steps :: Wants(kinds, step))
    && |marks| == |worlds| == |moves| + 1
    && (forall n | 0 <= n < |marks| :: marks[n] < |run| && Views(run[marks[n]], worlds[n]))
    && (forall n | 0 <= n < |moves| :: marks[n] <= marks[n + 1]
          && Serves(kinds, run, steps, marks[n], marks[n + 1], worlds[n], moves[n], worlds[n + 1]))
    && !worlds[0].closed && !worlds[0].diverged
    && C.Running(worlds[0].slots) == C.Desired(worlds[0].config, kinds)
  }

  lemma {:induction false} ChainWanted(kinds: set<C.Kind>, run: seq<State>, steps: seq<Step>, k: nat)
    requires Chain(run, steps) && AllWanted(kinds, run[0]) && (forall step | step in steps :: Wants(kinds, step))
    requires k < |run|
    ensures AllWanted(kinds, run[k])
  {
    if k > 0 {
      ChainWanted(kinds, run, steps, k - 1);
      assert Goes(run, steps, k - 1) && steps[k - 1] in steps;
      WantedKept(kinds, run[k - 1], steps[k - 1]);
    }
  }

  /**
    Over every run of the machine, with reloads, their calls and every supervisor interleaved:
    after each move of the service what runs is what the snapshot says, as over every sequence of
    reloads.
  */
  lemma {:induction false} EveryServiceRun(kinds: set<C.Kind>, run: seq<State>, steps: seq<Step>, marks: seq<nat>,
      worlds: seq<R.World>, moves: seq<R.Move>, n: nat)
    requires ServiceRun(kinds, run, steps, marks, worlds, moves) && n < |worlds|
    ensures R.Run(kinds, worlds, moves)
    ensures R.Honest(kinds, WorldAt(run[marks[n]], worlds[n].config, worlds[n].diverged),
                     R.Whole(worlds, moves, n), R.Clean(kinds, worlds, moves, n))
  {
    forall l | 0 <= l < |moves| ensures R.Moves(kinds, worlds[l], moves[l], worlds[l + 1]) {
      ChainWanted(kinds, run, steps, marks[l + 1]);
      ServiceMoves(kinds, run, steps, marks[l], marks[l + 1], worlds[l], moves[l], worlds[l + 1]);
    }
    R.EveryRun(kinds, worlds, moves, n);
  }
}
