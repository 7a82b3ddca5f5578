/**
  Calls on runs of the supervisors' machine: whatever other calls and the supervisors do meanwhile,
  a call keeps the lifecycle's contract on its own ID, and so does one after the other.
*/
module CallRuns {
  import opened Basics
  import opened Supervisor
  import opened Refinement
  import C = Collectors

  // ------------------------------------------------------------ one call

  ghost predicate Goes(run: seq<State>, steps: seq<Step>, k: nat) {
    && k < |steps| && k + 1 < |run|
    && Inv(run[k]) && Enabled(run[k], steps[k]) && run[k + 1] == Next(run[k], steps[k])
  }

  /** A run of the machine, and the steps it is made of. */
  ghost predicate Chain(run: seq<State>, steps: seq<Step>) {
    |run| == |steps| + 1 && Inv(run[0]) && forall k | 0 <= k < |steps| :: Goes(run, steps, k)
  }

  /** An update from its first step to its last: in time, given up, or refused since the ID was taken. */
  ghost predicate Updates(run: seq<State>, steps: seq<Step>, b: nat, e: nat, pid: Pid, c: C.Collector, ok: bool) {
    && b + 1 < e < |run| && Goes(run, steps, b) && Goes(run, steps, e - 1)
    && steps[b] == UpdateBegin(pid, c) && Stretch(run, steps, b + 1, e - 1, c.id)
    && pid in run[e - 1].ops && run[e - 1].ops[pid] == run[b + 1].ops[pid]
    && if ok then steps[e - 1].UpdateEnd? && steps[e - 1].pid == pid && Replaces(run[e - 1], pid)
       else
         || steps[e - 1] == UpdateGivesUp(pid)
         || (steps[e - 1].UpdateEnd? && steps[e - 1].pid == pid && !Replaces(run[e - 1], pid))
  }

  /** A stop from its first step to its return: without an error when the poller is done, or when there was none. */
  ghost predicate StopsOver(run: seq<State>, steps: seq<Step>, b: nat, e: nat, pid: Pid, id: Id, ok: bool) {
    && b < e < |run| && Goes(run, steps, b) && steps[b] == StopBegin(pid, id) && Stretch(run, steps, b + 1, e, id)
    && (ok <==> (id in run[b].items ==> At(run[e], run[b].items[id], Done)))
  }

  /** The stretch is a call of the lifecycle, among whatever does not concern its ID, and its answer. */
  ghost predicate Called(run: seq<State>, steps: seq<Step>, b: nat, e: nat, call: C.Call, ok: bool) {
    && b < e < |run|
    && match call
       case Start(c) =>
         || (ok && e == b + 1 && Goes(run, steps, b) && steps[b].StartNew? && steps[b].collector == c)
         || exists pid :: Updates(run, steps, b, e, pid, c, ok)
       case Update(c) => exists pid :: Updates(run, steps, b, e, pid, c, ok)
       case Drain(id) => ok && e == b + 1 && Goes(run, steps, b) && steps[b] == Step.Drain(id)
       case Stop(id) => exists pid :: StopsOver(run, steps, b, e, pid, id, ok)
       case Refuse(id) => !ok && Stretch(run, steps, b, e, id)
  }

  /** The slot of one ID. */
  function Alone(s: State, id: Id): C.Slots {
    if id in Slots(s) then map[id := Slots(s)[id]] else map[]
  }

  lemma {:induction false} StretchBeside(run: seq<State>, steps: seq<Step>, i: nat, j: nat, id: Id)
    requires Stretch(run, steps, i, j, id)
    ensures C.Beside({}, Alone(run[i], id), Alone(run[j], id))
  {
    StretchDrifts(run, steps, i, j, id);
  }

  lemma {:induction false} ChainInv(run: seq<State>, steps: seq<Step>, k: nat)
    requires Chain(run, steps) && k < |run|
    ensures Inv(run[k])
  {
    if k > 0 {
      assert Goes(run, steps, k - 1);
      InvKept(run[k - 1], steps[k - 1]);
    }
  }

  lemma {:induction false} ClosedStays(run: seq<State>, steps: seq<Step>, i: nat, j: nat)
    requires Chain(run, steps) && i <= j < |run| && run[i].closed
    ensures run[j].closed
    decreases j
  {
    if i < j {
      ClosedStays(run, steps, i, j - 1);
      assert Goes(run, steps, j - 1);
      ClosedStep(run[j - 1], steps[j - 1]);
    }
  }

  lemma {:induction false} ClosedStep(s: State, step: Step)
    requires Enabled(s, step) && s.closed
    ensures Next(s, step).closed
  {
  }

  lemma {:induction false} DoneStep(s: State, step: Step, h: Handle)
    requires Enabled(s, step) && At(s, h, Done)
    ensures At(Next(s, step), h, Done)
  {
  }

  lemma {:induction false} DoneStays(run: seq<State>, steps: seq<Step>, i: nat, j: nat, h: Handle)
    requires Chain(run, steps) && i <= j < |run| && At(run[i], h, Done)
    ensures At(run[j], h, Done)
    decreases j
  {
    if i < j {
      DoneStays(run, steps, i, j - 1, h);
      assert Goes(run, steps, j - 1);
      DoneStep(run[j - 1], steps[j - 1], h);
    }
  }

  /** A registered entry shows as dead exactly when it is done. */
  lemma {:induction false} DeadIsDone(s: State, id: Id)
    requires Inv(s)
    ensures id in s.items <==> id in Slots(s)
    ensures id in s.items ==> (Slots(s)[id].stage.Dead? <==> At(s, s.items[id], Done))
  {
    if id in s.items { assert PhaseOk(s.entries[s.items[id]]); }
  }

  /** As long as the lifecycle is open and no other call takes the ID, an update may replace what it found. */
  lemma {:induction false} StillReplaces(run: seq<State>, steps: seq<Step>, b: nat, e: nat, pid: Pid, c: C.Collector)
    requires b < e < |run| && Goes(run, steps, b) && steps[b] == UpdateBegin(pid, c)
    requires Stretch(run, steps, b + 1, e, c.id) && !run[e].closed
    requires pid in run[e].ops && run[e].ops[pid] == run[b + 1].ops[pid]
    ensures run[e].ops[pid] == Updating(c, Registered(run[b], c.id)) && Replaces(run[e], pid)
  {
    HandleCancelled(run[b], pid, c);
    StretchDrifts(run, steps, b + 1, e, c.id);
  }

  lemma {:induction false} UpdatePerforms(
      run: seq<State>, steps: seq<Step>, b: nat, e: nat, pid: Pid, c: C.Collector, ok: bool)
    requires Chain(run, steps) && Updates(run, steps, b, e, pid, c, ok) && !run[e].closed
    ensures ok ==> C.Runs(Slots(run[e]), c.id) == Some(c)
    ensures C.Inert(Slots(run[b]), c.id) ==> ok
  {
    OpenBefore(run, steps, e - 1, e);
    StillReplaces(run, steps, b, e - 1, pid, c);
    if ok {
      UpdateEnds(run[e - 1], pid, steps[e - 1].entry);
    } else {
      assert steps[e - 1] == UpdateGivesUp(pid) && c.id in run[b].items;
      DeadIsDone(run[b], c.id);
      NotDoneBefore(run, steps, b, e - 1, run[b].items[c.id]);
    }
  }

  lemma {:induction false} OpenBefore(run: seq<State>, steps: seq<Step>, i: nat, j: nat)
    requires Chain(run, steps) && i <= j < |run| && !run[j].closed
    ensures !run[i].closed
  {
    if run[i].closed { ClosedStays(run, steps, i, j); }
  }

  lemma {:induction false} NotDoneBefore(run: seq<State>, steps: seq<Step>, i: nat, j: nat, h: Handle)
    requires Chain(run, steps) && i <= j < |run| && !At(run[j], h, Done)
    ensures !At(run[i], h, Done)
  {
    if At(run[i], h, Done) { DoneStays(run, steps, i, j, h); }
  }

  lemma {:induction false} StopPerforms(
      run: seq<State>, steps: seq<Step>, b: nat, e: nat, pid: Pid, id: Id, ok: bool)
    requires Chain(run, steps) && StopsOver(run, steps, b, e, pid, id, ok)
    ensures C.Runs(Slots(run[e]), id).None?
    ensures C.Inert(Slots(run[b]), id) ==> ok
    ensures ok && C.Runs(Slots(run[b]), id).Some? ==> id !in Slots(run[e])
  {
    StopBegins(run[b], pid, id);
    StretchDrifts(run, steps, b + 1, e, id);
    StopKeepsHandle(run[b], pid, id);
    DeadIsDone(run[b], id);
    ChainInv(run, steps, e);
    DeadIsDone(run[e], id);
    if id in run[b].items && C.Inert(Slots(run[b]), id) {
      DoneStays(run, steps, b, e, run[b].items[id]);
    }
  }

  /** The contract of a call, from what it does to the slot of its ID. */
  lemma {:induction false} AlonePerformed(s: State, t: State, call: C.Call, ok: bool)
    requires ok && !call.Drain? ==> !call.Refuse? && C.Runs(Slots(t), call.Id()) == C.Goal([call])
    requires C.Inert(Slots(s), call.Id()) && !call.Refuse? ==> ok
    requires call.Drain? ==> C.Performed(Slots(s), Slots(t), call, ok)
    requires call.Stop? && ok && C.Runs(Slots(s), call.Id()).Some? ==> call.Id() !in Slots(t)
    ensures C.Performed(Alone(s, call.Id()), Alone(t, call.Id()), call, ok)
  {
  }

  lemma {:induction false} LaunchPerforms(s: State, step: Step)
    requires Inv(s) && Enabled(s, step) && step.StartNew?
    ensures C.Runs(Slots(Next(s, step)), step.collector.id) == Some(step.collector)
  {
    LaunchSteps(s, step);
  }

  lemma {:induction false} DrainPerforms(s: State, id: Id)
    requires Inv(s)
    ensures C.Performed(Slots(s), Slots(Next(s, Step.Drain(id))), C.Drain(id), true)
  {
    DrainStep(s, id);
    C.LifecycleContract(Slots(s), C.Drain(id), C.InTime);
  }

  /** Every call keeps the contract of the lifecycle on its ID, whatever else the machine does meanwhile. */
  lemma {:induction false} CallPerforms(run: seq<State>, steps: seq<Step>, b: nat, e: nat, call: C.Call, ok: bool)
    requires Chain(run, steps) && Called(run, steps, b, e, call, ok) && !run[e].closed
    ensures C.Performed(Alone(run[b], call.Id()), Alone(run[e], call.Id()), call, ok)
  {
    match call {
      case Start(c) =>
        if pid :| Updates(run, steps, b, e, pid, c, ok) {
          UpdatePerforms(run, steps, b, e, pid, c, ok);
        } else {
          LaunchPerforms(run[b], steps[b]);
        }
      case Update(c) =>
        var pid :| Updates(run, steps, b, e, pid, c, ok);
        UpdatePerforms(run, steps, b, e, pid, c, ok);
      case Drain(id) => DrainPerforms(run[b], id);
      case Stop(id) =>
        var pid :| StopsOver(run, steps, b, e, pid, id, ok);
        StopPerforms(run, steps, b, e, pid, id, ok);
      case Refuse(_) =>
    }
    AlonePerformed(run[b], run[e], call, ok);
  }

  // ------------------------------------------------------------ the calls on one ID

  /** A call and whether it returned without an error. */
  datatype Told = Told(call: C.Call, ok: bool)

  ghost predicate OverFirst(run: seq<State>, steps: seq<Step>, i: nat, b: nat, e: nat, j: nat, id: Id, told: Told) {
    && i <= b < e <= j < |run| && Stretch(run, steps, i, b, id)
    && told.call.Id() == id && Called(run, steps, b, e, told.call, told.ok)
  }

  /** From i to j these calls concern the ID, one after the other, and no others. */
  ghost predicate CallsOver(run: seq<State>, steps: seq<Step>, i: nat, j: nat, id: Id, told: seq<Told>)
    decreases |told|
  {
    if told == [] then Stretch(run, steps, i, j, id)
    else
      exists b: nat, e: nat ::
        OverFirst(run, steps, i, b, e, j, id, told[0]) && CallsOver(run, steps, e, j, id, told[1..])
  }

  /** What the contracts of the calls say together. */
  ghost predicate Leads(x: C.Slots, told: seq<Told>, y: C.Slots)
    decreases |told|
  {
    if told == [] then C.Beside({}, x, y)
    else exists v :: C.Performed(x, v, told[0].call, told[0].ok) && Leads(v, told[1..], y)
  }

  lemma {:induction false} PerformedAfter(x: C.Slots, u: C.Slots, v: C.Slots, call: C.Call, ok: bool)
    requires C.Beside({}, x, u) && C.Performed(u, v, call, ok)
    ensures C.Performed(x, v, call, ok)
  {
    var id := call.Id();
    assert C.Runs(u, id) == C.Runs(x, id) && (C.Inert(x, id) ==> C.Inert(u, id));
  }

  lemma {:induction false} CallsLead(run: seq<State>, steps: seq<Step>, i: nat, j: nat, id: Id, told: seq<Told>)
    requires Chain(run, steps) && CallsOver(run, steps, i, j, id, told) && j < |run| && !run[j].closed
    ensures Leads(Alone(run[i], id), told, Alone(run[j], id))
    decreases |told|
  {
    if told == [] {
      StretchBeside(run, steps, i, j, id);
    } else {
      var b: nat, e: nat :|
        OverFirst(run, steps, i, b, e, j, id, told[0]) && CallsOver(run, steps, e, j, id, told[1..]);
      OpenBefore(run, steps, e, j);
      StretchBeside(run, steps, i, b, id);
      CallPerforms(run, steps, b, e, told[0].call, told[0].ok);
      PerformedAfter(Alone(run[i], id), Alone(run[b], id), Alone(run[e], id), told[0].call, told[0].ok);
      CallsLead(run, steps, e, j, id, told[1..]);
    }
  }

  predicate AllOn(told: seq<Told>, id: Id) {
    forall t | t in told :: t.call.Id() == id
  }

  /** A last call that succeeds leaves running what it was to. */
  lemma {:induction false} LeadsGoal(x: C.Slots, told: seq<Told>, y: C.Slots, id: Id)
    requires Leads(x, told, y) && told != [] && AllOn(told, id)
    requires told[|told| - 1].ok && !told[|told| - 1].call.Drain?
    ensures C.Runs(y, id) == C.Goal([told[|told| - 1].call])
    decreases |told|
  {
    assert told[0] in told;
    var v :| C.Performed(x, v, told[0].call, told[0].ok) && Leads(v, told[1..], y);
    if |told| > 1 {
      assert told[1..][|told[1..]| - 1] == told[|told| - 1];
      LeadsGoal(v, told[1..], y, id);
    }
  }

  /** Where nothing is to be waited for, the first call that is no drain succeeds. */
  lemma {:induction false} LeadsInert(x: C.Slots, told: seq<Told>, y: C.Slots, id: Id, n: nat)
    requires Leads(x, told, y) && AllOn(told, id) && n < |told| && C.Inert(x, id)
    requires (forall k | 0 <= k < n :: told[k].call.Drain?) && !told[n].call.Refuse?
    ensures told[n].ok
    decreases n
  {
    assert told[0] in told;
    var v :| C.Performed(x, v, told[0].call, told[0].ok) && Leads(v, told[1..], y);
    if n > 0 {
      assert told[1..][n - 1] == told[n];
      forall t | t in told[1..] ensures t.call.Id() == id { assert t in told; }
      LeadsInert(v, told[1..], y, id, n - 1);
    }
  }

  /** What is started where nothing was, and stopped again, leaves the ID free. */
  lemma {:induction false} LeadsFreed(x: C.Slots, told: seq<Told>, y: C.Slots, c: C.Collector)
    requires Leads(x, told, y) && C.Inert(x, c.id) && |told| == 2
    requires told[0].call == C.Start(c) && told[1] == Told(C.Stop(c.id), true)
    ensures c.id !in y
  {
    var v :| C.Performed(x, v, told[0].call, told[0].ok) && Leads(v, told[1..], y);
    var u :| C.Performed(v, u, told[1..][0].call, told[1..][0].ok) && Leads(u, told[1..][1..], y);
    assert C.Runs(v, c.id) == Some(c);
  }
}
