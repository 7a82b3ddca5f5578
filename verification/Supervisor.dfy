/**
  The poller lifecycle: concurrent Start, Update, Drain, Stop and shutdown, and one supervisor
  for each entry, as interleaved atomic steps.

  What runs while the lifecycle's mutex is held is one step.  Waits and timers end whenever they
  may, and a supervisor can be between any two of its steps when a call comes.  A wait for an
  entry that is done does not give up.
*/
module Supervisor {
  import opened Basics
  import C = Collectors

  type Id = nat
  type Handle = nat
  type Pid = nat
  type Cycle = nat

  datatype Phase = Running | BackingOff | Restarting | Failed | Draining | Stopping

  /** Where a supervisor is. */
  datatype Place =
    | Polling                    // a run of the poller is active
    | Returned(crashed: bool)    // it returned; the context is to be checked
    | Recording(crashed: bool)   // the context was live; the failure or crash is to be recorded
    | Waiting                    // a rejected configuration: until the context ends
    | Delayed                    // a crash: until the timer fires or the context ends
    | Resuming                   // the timer fired; the restart is to be recorded
    | Exiting                    // on the way out
    | Exited                     // finalised, done not closed yet
    | Done

  datatype Entry = Entry(id: Id, collector: C.Collector, cancelled: bool, phase: Phase, place: Place, crashes: nat,
    lastCycle: Option<Cycle>)

  datatype Op =
    | Updating(collector: C.Collector, replaced: Option<Handle>)
    | StoppingOne(entry: Handle)
    | ShuttingDown(entries: set<Handle>)

  type Entries = map<Handle, Entry>
  type Items = map<Id, Handle>

  datatype State = State(
    entries: Entries, items: Items, closed: bool, baseCancelled: bool, ops: map<Pid, Op>, shutDown: bool)

  const FAILED_AFTER_CRASHES: nat := 5

  /** The supervisor has finished with the entry, whose run is over for good. */
  predicate Gone(e: Entry) {
    e.place.Exited? || e.place.Done?
  }

  predicate Active(e: Entry) {
    e.place.Polling?
  }

  // ------------------------------------------------------------ steps

  datatype Step =
    | StartNew(collector: C.Collector, entry: Handle)
    | UpdateBegin(pid: Pid, collector: C.Collector)
    | UpdateGivesUp(pid: Pid)
    | UpdateEnd(pid: Pid, entry: Handle)
    | Drain(id: Id)
    | StopBegin(pid: Pid, id: Id)
    | StopEnd(pid: Pid)
    | ShutdownBegin(pid: Pid)
    | CancelBase(pid: Pid)
    | ShutdownEnd(pid: Pid)
    | Report(entry: Handle, cycle: Cycle)
    | Return(entry: Handle, crashed: bool)
    | CheckContext(entry: Handle)
    | RecordFailure(entry: Handle)
    | RecordCrash(entry: Handle)
    | ContextEnds(entry: Handle)
    | TimerFires(entry: Handle)
    | RecordRestart(entry: Handle)
    | Finalise(entry: Handle)
    | CloseDone(entry: Handle)

  predicate ContextOver(s: State, h: Handle)
    requires h in s.entries
  {
    s.entries[h].cancelled || s.baseCancelled
  }

  predicate At(s: State, h: Handle, place: Place) {
    h in s.entries && s.entries[h].place == place
  }

  predicate AllDone(s: State, hs: set<Handle>) {
    forall h | h in hs :: At(s, h, Done)
  }

  /** Registers a new entry and launches its supervisor. */
  function Launch(s: State, c: C.Collector, h: Handle): State {
    s.(entries := s.entries[h := Entry(c.id, c, false, Running, Polling, 0, None)], items := s.items[c.id := h])
  }

  /** The entry cancelled, in the given phase. */
  function Cancel(entries: Entries, h: Handle, phase: Phase): Entries {
    if h in entries then entries[h := entries[h].(cancelled := true, phase := phase)] else entries
  }

  function Set(s: State, h: Handle, e: Entry): State {
    s.(entries := s.entries[h := e])
  }

  function Registered(s: State, id: Id): Option<Handle> {
    if id in s.items then Some(s.items[id]) else None
  }

  /** A step of an entry's own supervisor. */
  predicate Supervises(step: Step) {
    || step.Report? || step.Return? || step.CheckContext? || step.RecordFailure? || step.RecordCrash?
    || step.ContextEnds? || step.TimerFires? || step.RecordRestart? || step.Finalise? || step.CloseDone?
  }

  /** The ID was not taken since the update began, and the lifecycle is open. */
  predicate Replaces(s: State, pid: Pid)
    requires pid in s.ops && s.ops[pid].Updating?
  {
    var op := s.ops[pid];
    (op.collector.id in s.items ==> Registered(s, op.collector.id) == op.replaced) && !s.closed
  }

  function RecordedCrash(e: Entry): Entry {
    var n := e.crashes + 1;
    e.(place := Delayed, crashes := n,
       phase := if e.phase.Running? || e.phase.BackingOff? || e.phase.Failed?
                then if n >= FAILED_AFTER_CRASHES then Failed else BackingOff
                else e.phase)
  }

  /** What a supervisor makes of its entry: over is whether its context ended, mine whether it is registered. */
  function Own(e: Entry, over: bool, mine: bool, step: Step): Entry {
    match step
    case Report(_, cycle) => if over then e else e.(lastCycle := Some(cycle), crashes := 0)
    case Return(_, crashed) => e.(place := Returned(crashed))
    case CheckContext(_) =>
      if e.place.Returned? then e.(place := if over then Exiting else Recording(e.place.crashed)) else e
    case RecordFailure(_) => e.(place := Waiting, phase := if e.phase.Running? then Failed else e.phase)
    case RecordCrash(_) => RecordedCrash(e)
    case ContextEnds(_) => e.(place := Exiting)
    case TimerFires(_) => e.(place := Resuming)
    case RecordRestart(_) =>
      e.(place := Polling, phase := if e.phase.BackingOff? || e.phase.Failed? then Running else e.phase)
    case Finalise(_) => e.(place := Exited, phase := if mine && e.phase.Restarting? then Failed else e.phase)
    case CloseDone(_) => e.(place := Done)
    case _ => e
  }

  /** What the step is about to do fits where the supervisor is. */
  predicate Due(e: Entry, over: bool, step: Step) {
    match step
    case Report(_, _) => e.place.Polling?
    case Return(_, _) => e.place.Polling?
    case CheckContext(_) => e.place.Returned?
    case RecordFailure(_) => e.place == Recording(false)
    case RecordCrash(_) => e.place == Recording(true)
    case ContextEnds(_) => over && (e.place.Waiting? || e.place.Delayed?)
    case TimerFires(_) => e.place.Delayed?
    case RecordRestart(_) => e.place.Resuming?
    case Finalise(_) => e.place.Exiting?
    case CloseDone(_) => e.place.Exited?
    case _ => false
  }

  predicate Enabled(s: State, step: Step) {
    match step
    case StartNew(c, h) => c.id !in s.items && !s.closed && h !in s.entries
    case UpdateBegin(pid, _) => pid !in s.ops && !s.closed
    case UpdateGivesUp(pid) =>
      && pid in s.ops && s.ops[pid].Updating? && s.ops[pid].replaced.Some?
      && !At(s, s.ops[pid].replaced.value, Done)
    case UpdateEnd(pid, h) =>
      && pid in s.ops && s.ops[pid].Updating? && h !in s.entries
      && (s.ops[pid].replaced.Some? ==> At(s, s.ops[pid].replaced.value, Done))
    case Drain(id) => true
    case StopBegin(pid, id) => pid !in s.ops
    case StopEnd(pid) => pid in s.ops && s.ops[pid].StoppingOne?
    case ShutdownBegin(pid) => pid !in s.ops
    case CancelBase(pid) => pid in s.ops && s.ops[pid].ShuttingDown?
    case ShutdownEnd(pid) => pid in s.ops && s.ops[pid].ShuttingDown?
    case _ => step.entry in s.entries && Due(s.entries[step.entry], ContextOver(s, step.entry), step)
  }

  function Next(s: State, step: Step): State
    requires Enabled(s, step)
  {
    match step
    case StartNew(c, h) => Launch(s, c, h)
    case UpdateBegin(pid, c) =>
      s.(ops := s.ops[pid := Updating(c, Registered(s, c.id))],
         entries := if c.id in s.items then Cancel(s.entries, s.items[c.id], Restarting) else s.entries)
    case UpdateGivesUp(pid) => s.(ops := s.ops - {pid})
    case UpdateEnd(pid, h) =>
      var op, rest := s.ops[pid], s.(ops := s.ops - {pid});
      if Replaces(s, pid) then Launch(rest, op.collector, h) else rest
    case Drain(id) =>
      if id in s.items && s.items[id] in s.entries
      then Set(s, s.items[id], s.entries[s.items[id]].(phase := Draining)) else s
    case StopBegin(pid, id) =>
      if id in s.items
      then s.(ops := s.ops[pid := StoppingOne(s.items[id])], entries := Cancel(s.entries, s.items[id], Stopping)) else s
    case StopEnd(pid) => s.(ops := s.ops - {pid})
    case ShutdownBegin(pid) =>
      s.(closed := true,
         entries := map h | h in s.entries ::
           if h in s.items.Values then s.entries[h].(cancelled := true, phase := Stopping) else s.entries[h],
         ops := s.ops[pid := ShuttingDown(s.items.Values)])
    case CancelBase(pid) => s.(baseCancelled := true)
    case ShutdownEnd(pid) => s.(ops := s.ops - {pid}, shutDown := s.shutDown || AllDone(s, s.ops[pid].entries))
    case _ =>
      var h := step.entry;
      var e := s.entries[h];
      Set(s, h, Own(e, ContextOver(s, h), Registered(s, e.id) == Some(h), step)).(
        items := if step.Finalise? && Registered(s, e.id) == Some(h) && e.phase.Stopping? then s.items - {e.id}
          else s.items)
  }

  // ------------------------------------------------------------ runs

  ghost predicate Start(s: State) {
    s.entries == map[] && s.items == map[] && s.ops == map[] && !s.closed && !s.baseCancelled && !s.shutDown
  }

  ghost predicate Moves(s: State, t: State) {
    exists step :: Enabled(s, step) && t == Next(s, step)
  }

  ghost predicate Run(run: seq<State>) {
    && run != [] && Start(run[0])
    && forall i | 0 <= i < |run| - 1 :: Moves(run[i], run[i + 1])
  }

  // ------------------------------------------------------------ what every step keeps

  /** An entry is registered under its own ID, at least until its supervisor has finished. */
  ghost predicate ItemsOk(entries: Entries, items: Items) {
    && (forall id | id in items :: items[id] in entries && entries[items[id]].id == id)
    && (forall h | h in entries :: !Gone(entries[h]) ==> entries[h].id in items && items[entries[h].id] == h)
  }

  /** A cancelled entry never shows as running, and one that is not cancelled is supervised. */
  ghost predicate PhasesOk(entries: Entries) {
    forall h | h in entries :: PhaseOk(entries[h])
  }

  predicate PhaseOk(e: Entry) {
    && (e.cancelled ==> e.phase.Restarting? || e.phase.Stopping? || e.phase.Draining? || (e.phase.Failed? && Gone(e)))
    && (!e.cancelled ==> !e.place.Exiting? && !Gone(e))
  }

  /** Once closed, every supervisor that has not finished was told to. */
  ghost predicate ClosedOk(entries: Entries, closed: bool, baseCancelled: bool) {
    && (baseCancelled ==> closed)
    && (closed ==> forall h | h in entries :: entries[h].cancelled)
  }

  /** A shutdown waits for every supervisor there is. */
  ghost predicate ShutdownsOk(entries: Entries, ops: map<Pid, Op>, closed: bool) {
    forall pid | pid in ops && ops[pid].ShuttingDown? ::
      closed && forall h | h in entries :: Gone(entries[h]) || h in ops[pid].entries
  }

  /** Once a shutdown returned without an error, every supervisor has finished. */
  ghost predicate OverOk(entries: Entries, closed: bool, shutDown: bool) {
    shutDown ==> closed && forall h | h in entries :: Gone(entries[h])
  }

  ghost predicate Inv(s: State) {
    && ItemsOk(s.entries, s.items) && PhasesOk(s.entries) && ClosedOk(s.entries, s.closed, s.baseCancelled)
    && ShutdownsOk(s.entries, s.ops, s.closed) && OverOk(s.entries, s.closed, s.shutDown)
  }

  lemma {:induction false} ItemsSet(entries: Entries, items: Items, h: Handle, e: Entry)
    requires ItemsOk(entries, items) && h in entries && e.id == entries[h].id && (Gone(entries[h]) ==> Gone(e))
    ensures ItemsOk(entries[h := e], items)
    ensures Gone(e) ==> ItemsOk(entries[h := e], if e.id in items && items[e.id] == h then items - {e.id} else items)
  {
  }

  lemma {:induction false} ItemsLaunch(entries: Entries, items: Items, id: Id, h: Handle, e: Entry)
    requires ItemsOk(entries, items) && h !in entries && e.id == id && (id in items ==> Gone(entries[items[id]]))
    ensures ItemsOk(entries[h := e], items[id := h])
  {
  }

  /** The calls keep every unfinished entry registered. */
  lemma {:induction false} ItemsKeptByCalls(s: State, step: Step)
    requires Enabled(s, step) && ItemsOk(s.entries, s.items)
    requires step.StartNew? || step.UpdateBegin? || step.UpdateEnd? || step.Drain? || step.StopBegin?
    ensures var t := Next(s, step); ItemsOk(t.entries, t.items)
  {
    var t := Next(s, step);
    if step.StartNew? {
      ItemsLaunch(s.entries, s.items, step.collector.id, step.entry, t.entries[step.entry]);
    } else if step.UpdateEnd? {
      if Replaces(s, step.pid) {
        ItemsLaunch(s.entries, s.items, s.ops[step.pid].collector.id, step.entry, t.entries[step.entry]);
      }
    } else {
      var id := if step.UpdateBegin? then step.collector.id else step.id;
      if id in s.items { ItemsSet(s.entries, s.items, s.items[id], t.entries[s.items[id]]); }
    }
  }

  /** So do the supervisors. */
  lemma {:induction false} ItemsKeptBySupervisor(s: State, step: Step)
    requires Enabled(s, step) && ItemsOk(s.entries, s.items) && Supervises(step)
    ensures var t := Next(s, step); ItemsOk(t.entries, t.items)
  {
    ItemsSet(s.entries, s.items, step.entry, Next(s, step).entries[step.entry]);
  }

  lemma {:induction false} ItemsKept(s: State, step: Step)
    requires Enabled(s, step) && ItemsOk(s.entries, s.items)
    ensures var t := Next(s, step); ItemsOk(t.entries, t.items)
  {
    if Supervises(step) {
      ItemsKeptBySupervisor(s, step);
    } else if step.StartNew? || step.UpdateBegin? || step.UpdateEnd? || step.Drain? || step.StopBegin? {
      ItemsKeptByCalls(s, step);
    }
  }

  lemma {:induction false} OwnPhase(e: Entry, over: bool, mine: bool, step: Step)
    requires PhaseOk(e) && Due(e, over, step) && (over ==> e.cancelled)
    ensures PhaseOk(Own(e, over, mine, step))
  {
  }

  lemma {:induction false} PhasesKeptBySupervisor(s: State, step: Step)
    requires Enabled(s, step) && PhasesOk(s.entries) && ClosedOk(s.entries, s.closed, s.baseCancelled)
      && Supervises(step)
    ensures PhasesOk(Next(s, step).entries)
  {
    var e := s.entries[step.entry];
    OwnPhase(e, ContextOver(s, step.entry), Registered(s, e.id) == Some(step.entry), step);
  }

  lemma {:induction false} PhasesKept(s: State, step: Step)
    requires Enabled(s, step) && PhasesOk(s.entries) && ClosedOk(s.entries, s.closed, s.baseCancelled)
    ensures PhasesOk(Next(s, step).entries)
  {
    if Supervises(step) { PhasesKeptBySupervisor(s, step); }
  }

  /** What an entry keeps over a step: its ID, that it was cancelled, and what its supervisor may not undo. */
  ghost predicate Lasts(e: Entry, f: Entry) {
    && f.id == e.id && f.collector == e.collector
    && (e.cancelled ==> f.cancelled && f.lastCycle == e.lastCycle)
    && (Gone(e) ==> Gone(f))
  }

  lemma {:induction false} OwnLasts(e: Entry, over: bool, mine: bool, step: Step)
    requires Due(e, over, step) && (e.cancelled ==> over)
    ensures Lasts(e, Own(e, over, mine, step))
  {
  }

  lemma {:induction false} SetKeeps(s: State, h: Handle, e: Entry)
    requires h in s.entries && Lasts(s.entries[h], e)
    ensures ClosedOk(s.entries, s.closed, s.baseCancelled) ==> ClosedOk(s.entries[h := e], s.closed, s.baseCancelled)
    ensures ShutdownsOk(s.entries, s.ops, s.closed) ==> ShutdownsOk(s.entries[h := e], s.ops, s.closed)
    ensures OverOk(s.entries, s.closed, s.shutDown) ==> OverOk(s.entries[h := e], s.closed, s.shutDown)
  {
  }

  lemma {:induction false} KeptBySupervisor(s: State, step: Step)
    requires Enabled(s, step) && Supervises(step) && ClosedOk(s.entries, s.closed, s.baseCancelled)
    requires ShutdownsOk(s.entries, s.ops, s.closed) && OverOk(s.entries, s.closed, s.shutDown)
    ensures var t := Next(s, step);
      && ClosedOk(t.entries, t.closed, t.baseCancelled) && ShutdownsOk(t.entries, t.ops, t.closed)
      && OverOk(t.entries, t.closed, t.shutDown)
  {
    var e := s.entries[step.entry];
    var over, mine := ContextOver(s, step.entry), Registered(s, e.id) == Some(step.entry);
    OwnLasts(e, over, mine, step);
    SetKeeps(s, step.entry, Own(e, over, mine, step));
  }

  lemma {:induction false} ClosedKept(s: State, step: Step)
    requires Enabled(s, step) && !Supervises(step) && ItemsOk(s.entries, s.items) && PhasesOk(s.entries)
    requires ClosedOk(s.entries, s.closed, s.baseCancelled) && ShutdownsOk(s.entries, s.ops, s.closed)
    ensures var t := Next(s, step); ClosedOk(t.entries, t.closed, t.baseCancelled)
  {
  }

  lemma {:induction false} ShutdownsKept(s: State, step: Step)
    requires Enabled(s, step) && !Supervises(step) && ItemsOk(s.entries, s.items)
      && ShutdownsOk(s.entries, s.ops, s.closed)
    ensures var t := Next(s, step); ShutdownsOk(t.entries, t.ops, t.closed)
  {
  }

  lemma {:induction false} OverKept(s: State, step: Step)
    requires Enabled(s, step) && !Supervises(step)
    requires ShutdownsOk(s.entries, s.ops, s.closed) && OverOk(s.entries, s.closed, s.shutDown)
    ensures var t := Next(s, step); OverOk(t.entries, t.closed, t.shutDown)
  {
  }

  lemma {:induction false} InvKept(s: State, step: Step)
    requires Enabled(s, step) && Inv(s)
    ensures Inv(Next(s, step))
  {
    ItemsKept(s, step);
    PhasesKept(s, step);
    if Supervises(step) {
      KeptBySupervisor(s, step);
    } else {
      ClosedKept(s, step);
      ShutdownsKept(s, step);
      OverKept(s, step);
    }
  }

  lemma {:induction false} RunInv(run: seq<State>, i: nat)
    requires Run(run) && i < |run|
    ensures Inv(run[i])
  {
    if i > 0 {
      RunInv(run, i - 1);
      assert Moves(run[i - 1], run[i - 1 + 1]);
      var step :| Enabled(run[i - 1], step) && run[i] == Next(run[i - 1], step);
      InvKept(run[i - 1], step);
    }
  }

  // ------------------------------------------------------------ main results

  /** In every state of every run, each ID has at most one active poller, that of its registered entry. */
  lemma {:induction false} OneActiveRun(run: seq<State>, i: nat, h: Handle)
    requires Run(run) && i < |run| && h in run[i].entries && Active(run[i].entries[h])
    ensures Registered(run[i], run[i].entries[h].id) == Some(h)
    ensures forall k | k in run[i].entries && Active(run[i].entries[k])
      && run[i].entries[k].id == run[i].entries[h].id :: k == h
  {
    RunInv(run, i);
  }

  /**
    A collector whose phase is running has a supervisor that nobody has told to end, and one
    that was told to end shows as restarting, stopping, draining or, once it has finished, failed.
  */
  lemma {:induction false} PhaseTellsSupervision(run: seq<State>, i: nat, h: Handle)
    requires Run(run) && i < |run| && h in run[i].entries
    ensures var e := run[i].entries[h];
      && (e.phase.Running? || e.phase.BackingOff? ==> !e.cancelled && !e.place.Exiting? && !Gone(e))
      && (e.cancelled && !Gone(e) ==> e.phase.Restarting? || e.phase.Stopping? || e.phase.Draining?)
      && (!e.cancelled ==> !Gone(e) && Registered(run[i], e.id) == Some(h))
  {
    RunInv(run, i);
    assert PhaseOk(run[i].entries[h]);
  }

  lemma {:induction false} SupervisedLast(s: State, step: Step, h: Handle)
    requires Enabled(s, step) && h in s.entries && Supervises(step)
    ensures h in Next(s, step).entries && Lasts(s.entries[h], Next(s, step).entries[h])
  {
    var e := s.entries[step.entry];
    OwnLasts(e, ContextOver(s, step.entry), Registered(s, e.id) == Some(step.entry), step);
  }

  lemma {:induction false} EntriesLast(s: State, step: Step, h: Handle)
    requires Enabled(s, step) && h in s.entries
    ensures h in Next(s, step).entries && Lasts(s.entries[h], Next(s, step).entries[h])
  {
    if Supervises(step) { SupervisedLast(s, step, h); }
  }

  /** Until it finalises its entry, a supervisor never overwrites restarting, stopping or draining. */
  lemma {:induction false} RecordsRespectPhase(e: Entry, over: bool, mine: bool, step: Step)
    requires Due(e, over, step) && !step.Finalise?
    requires e.phase.Restarting? || e.phase.Stopping? || e.phase.Draining?
    ensures Own(e, over, mine, step).phase == e.phase
  {
  }

  /** No cycle of a cancelled run is ever stored, nothing is uncancelled, and who has finished stays so. */
  lemma {:induction false} CancelledForGood(run: seq<State>, i: nat, j: nat, h: Handle)
    requires Run(run) && i <= j < |run| && h in run[i].entries
    ensures h in run[j].entries && Lasts(run[i].entries[h], run[j].entries[h])
    decreases j
  {
    if i < j {
      CancelledForGood(run, i, j - 1, h);
      assert Moves(run[j - 1], run[j - 1 + 1]);
      var step :| Enabled(run[j - 1], step) && run[j] == Next(run[j - 1], step);
      EntriesLast(run[j - 1], step, h);
    }
  }

  /** What closing and shutting down leave so. */
  ghost predicate StaysShut(s: State, t: State) {
    (s.closed ==> t.closed && t.entries.Keys == s.entries.Keys) && (s.shutDown ==> t.shutDown)
  }

  lemma {:induction false} StaysShutStep(s: State, t: State)
    requires Moves(s, t)
    ensures StaysShut(s, t)
  {
    var step :| Enabled(s, step) && t == Next(s, step);
    ClosedAddsNothing(s, step);
  }

  lemma {:induction false} StaysShutAt(run: seq<State>, j: nat)
    requires Run(run) && 0 < j < |run|
    ensures StaysShut(run[j - 1], run[j])
  {
    assert Moves(run[j - 1], run[j - 1 + 1]);
    StaysShutStep(run[j - 1], run[j]);
  }

  lemma {:induction false} StaysShutAlong(run: seq<State>, i: nat, j: nat)
    requires i <= j < |run| && forall k | i < k <= j :: StaysShut(run[k - 1], run[k])
    ensures StaysShut(run[i], run[j])
    decreases j
  {
    if i < j { StaysShutAlong(run, i, j - 1); }
  }

  /** Closing and shutting down are final. */
  lemma {:induction false} ShutdownLasts(run: seq<State>, i: nat, j: nat)
    requires Run(run) && i <= j < |run|
    ensures StaysShut(run[i], run[j])
  {
    forall k | i < k <= j ensures StaysShut(run[k - 1], run[k]) { StaysShutAt(run, k); }
    StaysShutAlong(run, i, j);
  }

  lemma {:induction false} ClosedAddsNothing(s: State, step: Step)
    requires Enabled(s, step)
    ensures StaysShut(s, Next(s, step))
  {
  }

  /** After a shutdown has returned nil, at no later step is a run active, or an entry one that could start one. */
  lemma {:induction false} QuietAfterShutdown(run: seq<State>, i: nat, j: nat)
    requires Run(run) && i <= j < |run| && run[i].shutDown
    ensures run[j].closed && run[j].entries.Keys == run[i].entries.Keys
    ensures forall h | h in run[j].entries :: Gone(run[j].entries[h]) && !Active(run[j].entries[h])
  {
    RunInv(run, i);
    ShutdownLasts(run, i, j);
    RunInv(run, j);
  }

  // ------------------------------------------------------------ backoff

  function Pow2(n: nat): nat {
    if n == 0 then 1 else 2 * Pow2(n - 1)
  }

  /** The wait before a restart doubles with every crash, up to the longest. */
  method Delay(initial: nat, longest: nat, crashes: nat) returns (d: nat)
    ensures d == Min(initial * Pow2(if crashes == 0 then 0 else crashes - 1), longest)
  {
    d := initial;
    var i := 1;
    while i < crashes && d < longest
      invariant 1 <= i && (crashes > 0 ==> i <= crashes)
      invariant crashes == 0 ==> i == 1
      invariant d == initial * Pow2(i - 1)
    {
      d := d * 2;
      i := i + 1;
    }
    if i < crashes {
      Pow2Grows(initial, i - 1, crashes - 1);
    }
    d := Min(d, longest);
  }

  lemma {:induction false} Pow2Grows(a: nat, m: nat, n: nat)
    requires m <= n
    ensures a * Pow2(m) <= a * Pow2(n)
  {
    if m < n { Pow2Grows(a, m, n - 1); }
  }
}
