/**
  A reload's view of the lifecycle is faithful: every step of the supervisors is a drift of the
  slots, and the steps of a call, one after the other, are what the call does to its slot.
*/
module Refinement {
  import opened Basics
  import opened Supervisor
  import C = Collectors

  /** How an entry looks to a reload. */
  function StageOf(e: Entry): C.Stage {
    if !e.cancelled then C.Live(e.phase.Running?)
    else if e.place.Done? then C.Dead
    else if e.place.Exited? then C.Ending
    else C.Stuck(e.phase.Stopping?)
  }

  function SlotsOf(entries: Entries, items: Items): C.Slots {
    map id | id in items && items[id] in entries :: C.Slot(entries[items[id]].collector, StageOf(entries[items[id]]))
  }

  function Slots(s: State): C.Slots {
    SlotsOf(s.entries, s.items)
  }

  /** The slots once a call has cancelled what ran under the ID, to stop it or to replace it. */
  function Cancelled(a: C.Slots, id: Id, stopping: bool): C.Slots {
    if id in a then a[id := a[id].(stage := C.GivenUp(a[id].stage, stopping))] else a
  }

  /** An entry's exit, as a reload sees it. */
  predicate Exits(a: C.Stage, b: C.Stage) {
    (a.Stuck? && b.Ending?) || (a.Ending? && b.Dead?)
  }

  lemma {:induction false} OwnDrifts(e: Entry, over: bool, mine: bool, step: Step)
    requires PhaseOk(e) && Due(e, over, step) && (over ==> e.cancelled) && (e.cancelled ==> over)
    ensures var f := Own(e, over, mine, step);
      && f.collector == e.collector && f.cancelled == e.cancelled
      && (!e.cancelled ==> StageOf(f).Live?)
      && (e.cancelled ==> StageOf(f) == StageOf(e) || Exits(StageOf(e), StageOf(f)))
      && (StageOf(e).Stuck? && StageOf(f).Ending? ==> step.Finalise?)
  {
  }

  /** Replacing one entry by what its supervisor makes of it is drift. */
  lemma {:induction false} SetDrifts(entries: Entries, items: Items, h: Handle, f: Entry)
    requires ItemsOk(entries, items) && h in entries && f.id == entries[h].id && f.collector == entries[h].collector
    requires entries[h].cancelled == f.cancelled && (!f.cancelled ==> StageOf(f).Live?)
    requires f.cancelled ==> StageOf(f) == StageOf(entries[h]) || Exits(StageOf(entries[h]), StageOf(f))
    requires StageOf(f) == StageOf(entries[h]) || StageOf(entries[h]) != C.Stuck(true)
    ensures C.Drifted(SlotsOf(entries, items), SlotsOf(entries[h := f], items))
  {
    var s, t := SlotsOf(entries, items), SlotsOf(entries[h := f], items);
    assert t.Keys == s.Keys;
    forall id | id in t ensures t[id] == if items[id] == h then C.Slot(f.collector, StageOf(f)) else s[id] {}
  }

  /** So is dropping one that was stopping. */
  lemma {:induction false} DropDrifts(entries: Entries, items: Items, h: Handle, f: Entry)
    requires ItemsOk(entries, items) && h in entries && f.id == entries[h].id
    requires StageOf(entries[h]) == C.Stuck(true) && f.id in items && items[f.id] == h
    ensures C.Drifted(SlotsOf(entries, items), SlotsOf(entries[h := f], items - {f.id}))
  {
    var s, t := SlotsOf(entries, items), SlotsOf(entries[h := f], items - {f.id});
    forall id | id in t ensures id in s && t[id] == s[id] {}
    forall id | id in s ensures id in t || id == f.id {}
  }

  /** What is not registered a reload does not see. */
  lemma {:induction false} HiddenSlots(entries: Entries, items: Items, h: Handle, f: Entry)
    requires ItemsOk(entries, items) && h in entries && f.id == entries[h].id && !(f.id in items && items[f.id] == h)
    ensures SlotsOf(entries[h := f], items) == SlotsOf(entries, items)
  {
    forall id | id in items ensures items[id] != h {}
  }

  lemma {:induction false} OwnSlotsDrift(entries: Entries, items: Items, h: Handle, over: bool, step: Step)
    requires ItemsOk(entries, items) && h in entries && PhaseOk(entries[h]) && Due(entries[h], over, step)
    requires over <==> entries[h].cancelled
    ensures var e := entries[h];
      var mine := e.id in items && items[e.id] == h;
      C.Drifted(SlotsOf(entries, items), SlotsOf(entries[h := Own(e, over, mine, step)],
        if step.Finalise? && mine && e.phase.Stopping? then items - {e.id} else items))
  {
    var e := entries[h];
    var mine := e.id in items && items[e.id] == h;
    var f := Own(e, over, mine, step);
    OwnDrifts(e, over, mine, step);
    OwnLasts(e, over, mine, step);
    if !mine {
      HiddenSlots(entries, items, h, f);
      C.DriftedBack(SlotsOf(entries, items));
    } else if step.Finalise? && e.phase.Stopping? {
      DropDrifts(entries, items, h, f);
    } else {
      SetDrifts(entries, items, h, f);
    }
  }

  /** What a supervisor does, a reload sees as drift. */
  lemma {:induction false} SupervisorDrifts(s: State, step: Step)
    requires Enabled(s, step) && Supervises(step) && Inv(s)
    ensures C.Drifted(Slots(s), Slots(Next(s, step)))
  {
    var h := step.entry;
    assert PhaseOk(s.entries[h]);
    OwnSlotsDrift(s.entries, s.items, h, ContextOver(s, h), step);
  }

  /** The steps of the calls, as they change the slots. */
  lemma {:induction false} LaunchSteps(s: State, step: Step)
    requires Enabled(s, step) && Inv(s) && (step.StartNew? || step.UpdateEnd?)
    ensures var a, b := Slots(s), Slots(Next(s, step));
      match step
      case StartNew(c, _) => b == C.Do(a, C.Start(c), C.InTime).slots
      case UpdateEnd(pid, _) =>
        b == if Replaces(s, pid) then a[s.ops[pid].collector.id := C.Slot(s.ops[pid].collector, C.Live(true))] else a
      case _ => true
  {
    match step
    case StartNew(c, h) => LaunchSlots(s, c, h);
    case UpdateEnd(pid, h) => if Replaces(s, pid) { LaunchSlots(s, s.ops[pid].collector, h); }
  }

  /** Registering a new entry changes the slot of its ID and no other. */
  lemma {:induction false} LaunchSlots(s: State, c: C.Collector, h: Handle)
    requires h !in s.entries && ItemsOk(s.entries, s.items)
    ensures Slots(Launch(s, c, h)) == Slots(s)[c.id := C.Slot(c, C.Live(true))]
  {
    forall id | id in s.items ensures s.items[id] != h && s.items[id] in s.entries {}
  }

  /** Cancelling what is registered under an ID, to stop it or to replace it. */
  lemma {:induction false} CancelSlots(entries: Entries, items: Items, id: Id, phase: Phase)
    requires ItemsOk(entries, items) && PhasesOk(entries) && id in items
    ensures SlotsOf(Cancel(entries, items[id], phase), items) == Cancelled(SlotsOf(entries, items), id, phase.Stopping?)
  {
    var h := items[id];
    forall other | other in items && other != id ensures items[other] != h {
      assert entries[items[other]].id == other;
    }
    assert PhaseOk(entries[h]);
  }

  lemma {:induction false} UpdateBegins(s: State, pid: Pid, c: C.Collector)
    requires Enabled(s, UpdateBegin(pid, c)) && Inv(s)
    ensures Slots(Next(s, UpdateBegin(pid, c))) == Cancelled(Slots(s), c.id, false)
  {
    if c.id in s.items { CancelSlots(s.entries, s.items, c.id, Restarting); }
  }

  lemma {:induction false} StopBegins(s: State, pid: Pid, id: Id)
    requires Enabled(s, StopBegin(pid, id)) && Inv(s)
    ensures Slots(Next(s, StopBegin(pid, id))) == Cancelled(Slots(s), id, true)
  {
    if id in s.items { CancelSlots(s.entries, s.items, id, Stopping); }
  }

  lemma {:induction false} DrainSlots(entries: Entries, items: Items, id: Id)
    requires ItemsOk(entries, items) && PhasesOk(entries) && id in items
    ensures var e := entries[items[id]].(phase := Draining);
      SlotsOf(entries[items[id] := e], items) == C.Do(SlotsOf(entries, items), C.Drain(id), C.InTime).slots
  {
    var h := items[id];
    forall other | other in items && other != id ensures items[other] != h {
      assert entries[items[other]].id == other;
    }
    assert PhaseOk(entries[h]);
  }

  lemma {:induction false} DrainStep(s: State, id: Id)
    requires Inv(s)
    ensures Slots(Next(s, Drain(id))) == C.Do(Slots(s), C.Drain(id), C.InTime).slots
  {
    if id in s.items { DrainSlots(s.entries, s.items, id); }
  }

  predicate Quiet(step: Step) {
    step.UpdateGivesUp? || step.StopEnd? || step.CancelBase? || step.ShutdownEnd?
  }

  lemma {:induction false} QuietSteps(s: State, step: Step)
    requires Enabled(s, step) && Quiet(step)
    ensures Slots(Next(s, step)) == Slots(s)
  {
  }

  // ------------------------------------------------------------ whole calls

  function SlotAt(s: State, id: Id): Option<C.Slot> {
    if id in Slots(s) then Some(Slots(s)[id]) else None
  }

  predicate ExitedAt(x: C.Slot, y: Option<C.Slot>) {
    y == Some(x.(stage := C.Ending)) || y == Some(x.(stage := C.Dead))
  }

  predicate DriftAt(x: Option<C.Slot>, y: Option<C.Slot>) {
    if x.None? then y.None?
    else match x.value.stage
      case Live(_) => y.Some? && y.value.collector == x.value.collector && y.value.stage.Live?
      case Stuck(stopping) => y == x || (if stopping then y.None? else ExitedAt(x.value, y))
      case Ending => ExitedAt(x.value, y)
      case Dead => y == x
  }

  /** The step is no call on the ID, and no shutdown. */
  predicate Away(s: State, step: Step, id: Id) {
    match step
    case StartNew(c, _) => c.id != id
    case UpdateBegin(_, c) => c.id != id
    case UpdateEnd(pid, _) => pid in s.ops && s.ops[pid].Updating? && s.ops[pid].collector.id != id
    case Drain(other) => other != id
    case StopBegin(_, other) => other != id
    case ShutdownBegin(_) => false
    case _ => true
  }

  lemma {:induction false} CallsElsewhere(s: State, step: Step, id: Id)
    requires Enabled(s, step) && Inv(s) && Away(s, step, id) && !Supervises(step) && !Quiet(step)
    ensures SlotAt(Next(s, step), id) == SlotAt(s, id)
  {
    match step
    case UpdateBegin(pid, c) => UpdateBegins(s, pid, c);
    case StopBegin(pid, other) => StopBegins(s, pid, other);
    case Drain(other) => DrainStep(s, other);
    case _ => LaunchSteps(s, step);
  }

  lemma {:induction false} AwayDrifts(s: State, step: Step, id: Id)
    requires Enabled(s, step) && Inv(s) && Away(s, step, id)
    ensures DriftAt(SlotAt(s, id), SlotAt(Next(s, step), id))
  {
    if Supervises(step) {
      SupervisorDrifts(s, step);
      DriftsAt(s, Next(s, step), id);
    } else {
      if Quiet(step) { QuietSteps(s, step); } else { CallsElsewhere(s, step, id); }
      StaysAt(SlotAt(s, id));
    }
  }

  lemma {:induction false} DriftsAt(s: State, t: State, id: Id)
    requires C.Drifted(Slots(s), Slots(t))
    ensures DriftAt(SlotAt(s, id), SlotAt(t, id))
  {
  }

  lemma {:induction false} StaysAt(x: Option<C.Slot>)
    ensures DriftAt(x, x)
  {
  }

  /** No step but a call on the ID registers another entry under it. */
  lemma {:induction false} AwayKeepsHandle(s: State, step: Step, id: Id)
    requires Enabled(s, step) && Away(s, step, id)
    ensures Registered(Next(s, step), id) == Registered(s, id) || Registered(Next(s, step), id).None?
  {
  }

  /** A stretch of a run in which no other call touches the ID. */
  ghost predicate Stretch(run: seq<State>, steps: seq<Step>, i: nat, j: nat, id: Id) {
    && i <= j < |run| && j <= |steps|
    && forall k | i <= k < j :: StretchStep(run[k], steps[k], run[k + 1], id)
  }

  ghost predicate StretchStep(s: State, step: Step, t: State, id: Id) {
    Inv(s) && Enabled(s, step) && t == Next(s, step) && Away(s, step, id)
  }

  lemma {:induction false} StretchDrifts(run: seq<State>, steps: seq<Step>, i: nat, j: nat, id: Id)
    requires Stretch(run, steps, i, j, id)
    ensures DriftAt(SlotAt(run[i], id), SlotAt(run[j], id))
    ensures Registered(run[j], id) == Registered(run[i], id) || Registered(run[j], id).None?
    decreases j
  {
    if i < j {
      StretchDrifts(run, steps, i, j - 1, id);
      assert StretchStep(run[j - 1], steps[j - 1], run[j - 1 + 1], id);
      AwayDrifts(run[j - 1], steps[j - 1], id);
      AwayKeepsHandle(run[j - 1], steps[j - 1], id);
    }
  }

  /**
    An update from its first step to its last, with no other call on its ID in between, does to
    the slot what a reload counts on: in time, it leaves the new collector live.
  */
  lemma {:induction false} UpdateInTime(run: seq<State>, steps: seq<Step>, i: nat, j: nat, pid: Pid, c: C.Collector,
      h: Handle)
    requires i < j < |run|
    requires Inv(run[i]) && Enabled(run[i], UpdateBegin(pid, c)) && run[i + 1] == Next(run[i], UpdateBegin(pid, c))
    requires Stretch(run, steps, i + 1, j, c.id)
    requires Inv(run[j]) && Enabled(run[j], UpdateEnd(pid, h)) && !run[j].closed
    requires run[j].ops[pid] == run[i + 1].ops[pid]
    ensures SlotAt(Next(run[j], UpdateEnd(pid, h)), c.id) == Some(C.Slot(c, C.Live(true)))
    ensures var d := C.Do(Slots(run[i]), C.Update(c), C.InTime);
      d.ok && c.id in d.slots && d.slots[c.id] == C.Slot(c, C.Live(true))
  {
    StretchDrifts(run, steps, i + 1, j, c.id);
    HandleCancelled(run[i], pid, c);
    UpdateEnds(run[j], pid, h);
  }

  lemma {:induction false} UpdateEnds(s: State, pid: Pid, h: Handle)
    requires Inv(s) && Enabled(s, UpdateEnd(pid, h)) && Replaces(s, pid)
    ensures var c := s.ops[pid].collector; SlotAt(Next(s, UpdateEnd(pid, h)), c.id) == Some(C.Slot(c, C.Live(true)))
  {
    LaunchSteps(s, UpdateEnd(pid, h));
  }

  lemma {:induction false} HandleCancelled(s: State, pid: Pid, c: C.Collector)
    requires Enabled(s, UpdateBegin(pid, c))
    ensures var t := Next(s, UpdateBegin(pid, c));
      Registered(t, c.id) == Registered(s, c.id) && t.ops[pid] == Updating(c, Registered(s, c.id))
  {
  }

  /** A call that cancels a slot leaves what a late one does there. */
  lemma {:induction false} LateAt(a: C.Slots, id: Id, c: C.Collector)
    requires id in a && !a[id].stage.Dead? && c.id == id
    ensures var d := C.Do(a, C.Update(c), C.Late); !d.ok && d.slots == Cancelled(a, id, false)
    ensures var d := C.Do(a, C.Stop(id), C.Late); !d.ok && d.slots == Cancelled(a, id, true)
  {
  }

  /** One that gives up waiting leaves the slot cancelled, or as it drifts from there. */
  lemma {:induction false} UpdateLate(run: seq<State>, steps: seq<Step>, i: nat, j: nat, pid: Pid, c: C.Collector)
    requires i < j < |run|
    requires Inv(run[i]) && Enabled(run[i], UpdateBegin(pid, c)) && run[i + 1] == Next(run[i], UpdateBegin(pid, c))
    requires Stretch(run, steps, i + 1, j, c.id)
    requires SlotAt(run[i], c.id).Some? && !SlotAt(run[i], c.id).value.stage.Dead?
    ensures var d := C.Do(Slots(run[i]), C.Update(c), C.Late);
      !d.ok && c.id in d.slots && DriftAt(Some(d.slots[c.id]), SlotAt(run[j], c.id))
  {
    LateAt(Slots(run[i]), c.id, c);
    UpdateBegins(run[i], pid, c);
    StretchDrifts(run, steps, i + 1, j, c.id);
  }

  /**
    A stop that waited for its entry to be done leaves the slot free, unless the poller had
    exited before: then it stays registered.  One that gave up leaves it stopping, or as it drifts.
  */
  lemma {:induction false} StopDone(run: seq<State>, steps: seq<Step>, i: nat, j: nat, pid: Pid, id: Id)
    requires i < j < |run|
    requires Inv(run[i]) && Enabled(run[i], StopBegin(pid, id)) && run[i + 1] == Next(run[i], StopBegin(pid, id))
    requires Stretch(run, steps, i + 1, j, id) && Inv(run[j])
    requires id in run[i].items ==> At(run[j], run[i].items[id], Done)
    ensures var d := C.Do(Slots(run[i]), C.Stop(id), C.InTime);
      d.ok && SlotAt(run[j], id) == if id in d.slots then Some(d.slots[id]) else None
  {
    StopBegins(run[i], pid, id);
    StretchDrifts(run, steps, i + 1, j, id);
    StopKeepsHandle(run[i], pid, id);
    GoneSlot(run[j], id);
  }

  lemma {:induction false} StopKeepsHandle(s: State, pid: Pid, id: Id)
    requires Enabled(s, StopBegin(pid, id))
    ensures Registered(Next(s, StopBegin(pid, id)), id) == Registered(s, id)
  {
  }

  /** A registered entry that is done shows as dead. */
  lemma {:induction false} GoneSlot(s: State, id: Id)
    requires Inv(s)
    ensures id in s.items ==> id in Slots(s)
    ensures id in s.items && s.entries[s.items[id]].place.Done? ==> Slots(s)[id].stage.Dead?
  {
    if id in s.items { assert PhaseOk(s.entries[s.items[id]]); }
  }

  lemma {:induction false} StopLate(run: seq<State>, steps: seq<Step>, i: nat, j: nat, pid: Pid, id: Id)
    requires i < j < |run|
    requires Inv(run[i]) && Enabled(run[i], StopBegin(pid, id)) && run[i + 1] == Next(run[i], StopBegin(pid, id))
    requires Stretch(run, steps, i + 1, j, id)
    requires SlotAt(run[i], id).Some? && !SlotAt(run[i], id).value.stage.Dead?
    ensures var d := C.Do(Slots(run[i]), C.Stop(id), C.Late);
      !d.ok && id in d.slots && DriftAt(Some(d.slots[id]), SlotAt(run[j], id))
  {
    LateAt(Slots(run[i]), id, C.Collector(id, 0, true, 0));
    StopBegins(run[i], pid, id);
    StretchDrifts(run, steps, i + 1, j, id);
  }
}
