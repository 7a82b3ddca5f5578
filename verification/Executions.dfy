/**
  Reconciliations that fail and are rolled back, call by call: from a plan, a phase and an ID in
  it that has something to wait for, the calls of one and how their waits end.
*/
module Executions {
  import opened Basics
  import opened Collectors
  import opened Reconcile

  /** A call, how its wait ends, and whether it succeeds. */
  datatype Event = Event(call: Call, luck: Luck, ok: bool)

  /** The events, one after the other, lead from s to t. */
  predicate Plays(s: Slots, es: seq<Event>, t: Slots)
    decreases |es|
  {
    if es == [] then s == t
    else
      var d := Do(s, es[0].call, es[0].luck);
      d.ok == es[0].ok && Plays(d.slots, es[1..], t)
  }

  lemma {:induction false} PlaysOn(r: Slots, a: seq<Event>, s: Slots, b: seq<Event>, t: Slots)
    requires Plays(r, a, s) && Plays(s, b, t)
    ensures Plays(r, a + b, t)
    decreases |a|
  {
    if a == [] {
      assert a + b == b;
    } else {
      assert (a + b)[0] == a[0] && (a + b)[1..] == a[1..] + b;
      PlaysOn(Do(r, a[0].call, a[0].luck).slots, a[1..], s, b, t);
    }
  }

  // ------------------------------------------------------------ one step

  /** The calls of a step; when it is late, the last one's wait is, and fails. */
  function StepEvents(calls: seq<Call>, late: bool): seq<Event> {
    seq(|calls|, i requires 0 <= i < |calls| =>
      if late && i == |calls| - 1 then Event(calls[i], Late, false) else Event(calls[i], InTime, true))
  }

  function Put(s: Slots, id: Id, x: Option<Slot>): Slots {
    if x.Some? then s[id := x.value] else s - {id}
  }

  function SlotAt(s: Slots, id: Id): Option<Slot> {
    if id in s then Some(s[id]) else None
  }

  /** What a step's calls leave in its slot. */
  function Left(x: Option<Slot>, calls: seq<Call>, late: bool): Option<Slot>
    requires calls != []
  {
    match calls[|calls| - 1]
    case Start(c) => LeftBy(x, c, late)
    case Update(c) => LeftBy(x, c, late)
    case _ =>
      if x.None? || x.value.stage.Dead? then x
      else if late then Some(x.value.(stage := GivenUp(x.value.stage, true)))
      else if x.value.stage.Ending? then Some(x.value.(stage := Dead))
      else None
  }

  function LeftBy(x: Option<Slot>, c: Collector, late: bool): Option<Slot> {
    if late && x.Some? then Some(x.value.(stage := GivenUp(x.value.stage, false))) else Some(Slot(c, Live(true)))
  }

  /** A step of a plan: one call, or a drain and a stop. */
  predicate Simple(calls: seq<Call>, id: Id) {
    && (calls == [Drain(id), Stop(id)]
      || (|calls| == 1 && calls[0].Id() == id && (calls[0].Start? || calls[0].Update? || calls[0].Stop?)))
  }

  lemma {:induction false} StepPlays(s: Slots, id: Id, calls: seq<Call>, late: bool)
    requires Simple(calls, id) && (late ==> !Inert(s, id))
    ensures Plays(s, StepEvents(calls, late), Put(s, id, Left(SlotAt(s, id), calls, late)))
  {
    var es := StepEvents(calls, late);
    if |calls| == 1 {
      assert es[1..] == [];
      OneCall(s, calls[0], late);
    } else {
      DrainAndStop(s, id, late);
      assert es == [es[0], es[1]] && es[1..] == [es[1]] && es[1..][1..] == [];
    }
  }

  lemma {:induction false} OneCall(s: Slots, call: Call, late: bool)
    requires !call.Drain? && !call.Refuse? && (late ==> !Inert(s, call.Id()))
    ensures Do(s, call, if late then Late else InTime)
         == Done(Put(s, call.Id(), Left(SlotAt(s, call.Id()), [call], late)), !late)
  {
    if call.Id() !in s { assert s - {call.Id()} == s; }
    else { assert s[call.Id() := s[call.Id()]] == s; }
  }

  lemma {:induction false} DrainAndStop(s: Slots, id: Id, late: bool)
    requires late ==> !Inert(s, id)
    ensures var drained := Do(s, Drain(id), InTime);
      drained.ok && Do(drained.slots, Stop(id), if late then Late else InTime)
        == Done(Put(s, id, Left(SlotAt(s, id), [Drain(id), Stop(id)], late)), !late)
  {
    if id !in s {
      assert s - {id} == s;
    } else {
      var d := s[id := s[id].(stage := Drained(s[id].stage))];
      assert d - {id} == s - {id};
      var y := s[id].(stage := GivenUp(s[id].stage, true));
      assert d[id := y] == s[id := y];
      if Exited(s[id].stage) { assert d == s && s[id := s[id]] == s; }
    }
  }

  // ------------------------------------------------------------ one phase

  function PhaseEvents(steps: seq<Step>, undoing: bool, late: Option<Id>): seq<Event> {
    if steps == [] then []
    else StepEvents(steps[0].Calls(undoing), late == Some(steps[0].id)) + PhaseEvents(steps[1..], undoing, late)
  }

  predicate SimplePhase(steps: seq<Step>, undoing: bool) {
    && (forall i | 0 <= i < |steps| :: Simple(steps[i].Calls(undoing), steps[i].id))
    && (forall i, j | 0 <= i < j < |steps| :: steps[i].id != steps[j].id)
  }

  function AfterPhase(s: Slots, steps: seq<Step>, undoing: bool, late: Option<Id>): Slots
    requires SimplePhase(steps, undoing)
    decreases |steps|
  {
    if steps == [] then s
    else
      var x := steps[0];
      AfterPhase(Put(s, x.id, Left(SlotAt(s, x.id), x.Calls(undoing), late == Some(x.id))), steps[1..], undoing, late)
  }

  lemma {:induction false} PhasePlays(s: Slots, steps: seq<Step>, undoing: bool, late: Option<Id>)
    requires SimplePhase(steps, undoing)
    requires forall i | 0 <= i < |steps| && late == Some(steps[i].id) :: !Inert(s, steps[i].id)
    ensures Plays(s, PhaseEvents(steps, undoing, late), AfterPhase(s, steps, undoing, late))
    decreases |steps|
  {
    if steps != [] {
      var x := steps[0];
      var t := Put(s, x.id, Left(SlotAt(s, x.id), x.Calls(undoing), late == Some(x.id)));
      StepPlays(s, x.id, x.Calls(undoing), late == Some(x.id));
      forall i | 0 <= i < |steps[1..]| && late == Some(steps[1..][i].id) ensures !Inert(t, steps[1..][i].id) {
        assert steps[1..][i] == steps[i + 1] && steps[i + 1].id != x.id;
      }
      PhasePlays(t, steps[1..], undoing, late);
      PlaysOn(s, StepEvents(x.Calls(undoing), late == Some(x.id)), t, PhaseEvents(steps[1..], undoing, late),
              AfterPhase(t, steps[1..], undoing, late));
    }
  }

  /** A phase leaves other IDs as they are. */
  lemma {:induction false} AfterElsewhere(s: Slots, steps: seq<Step>, undoing: bool, late: Option<Id>, id: Id)
    requires SimplePhase(steps, undoing) && forall i | 0 <= i < |steps| :: steps[i].id != id
    ensures SlotAt(AfterPhase(s, steps, undoing, late), id) == SlotAt(s, id)
    decreases |steps|
  {
    if steps != [] {
      var x := steps[0];
      AfterElsewhere(Put(s, x.id, Left(SlotAt(s, x.id), x.Calls(undoing), late == Some(x.id))), steps[1..], undoing,
        late, id);
    }
  }

  lemma {:induction false} AfterStep(s: Slots, steps: seq<Step>, undoing: bool, late: Option<Id>, k: nat)
    requires SimplePhase(steps, undoing) && k < |steps|
    ensures SlotAt(AfterPhase(s, steps, undoing, late), steps[k].id)
         == Left(SlotAt(s, steps[k].id), steps[k].Calls(undoing), late == Some(steps[k].id))
    decreases |steps|
  {
    var x := steps[0];
    var t := Put(s, x.id, Left(SlotAt(s, x.id), x.Calls(undoing), late == Some(x.id)));
    if k == 0 {
      AfterElsewhere(t, steps[1..], undoing, late, x.id);
    } else {
      assert steps[1..][k - 1] == steps[k];
      AfterStep(t, steps[1..], undoing, late, k - 1);
    }
  }

  // ------------------------------------------------------------ a whole reconciliation

  /** A phase in the order the reconciliation or its rollback takes it. */
  function InOrder(d: Diff, k: nat, undoing: bool): seq<Step>
    requires k <= 2
  {
    if undoing then Reversed(Phases(d)[k]) else Phases(d)[k]
  }

  /** A phase as it is taken: done or undone, and whose wait in it is late. */
  datatype Leg = Leg(k: nat, undoing: bool, late: Option<Id>)

  predicate AreLegs(legs: seq<Leg>) {
    forall i | 0 <= i < |legs| :: legs[i].k <= 2
  }

  /** The phases up to k, in which the wait for one ID is late, and their undoing, the last first. */
  function Attempt(k: nat, late: Id): seq<Leg> {
    if k == 1 then [Leg(0, false, None), Leg(1, false, Some(late)), Leg(1, true, None), Leg(0, true, None)]
    else
      [Leg(0, false, None), Leg(1, false, None), Leg(2, false, Some(late)), Leg(2, true, None), Leg(1, true, None),
        Leg(0, true, None)]
  }

  function LegEvents(d: Diff, leg: Leg): seq<Event>
    requires leg.k <= 2
  {
    PhaseEvents(InOrder(d, leg.k, leg.undoing), leg.undoing, leg.late)
  }

  /** The calls of the phases, one phase after the other. */
  function Calls(d: Diff, legs: seq<Leg>): seq<Event>
    requires AreLegs(legs)
  {
    if legs == [] then [] else LegEvents(d, legs[0]) + Calls(d, legs[1..])
  }

  /** The slots with the touched registrations running. */
  function Restarting(s: Slots, touched: set<Id>): Slots {
    map id | id in s :: if id in touched then Slot(s[id].collector, Live(true)) else s[id]
  }

  lemma {:induction false} PhaseIsSimple(d: Diff, target: Table, k: nat, undoing: bool, kinds: set<Kind>)
    requires IsPlan(d, d.previous, target) && WellKeyed(d.previous, kinds) && WellKeyed(target, kinds) && k <= 2
    ensures SimplePhase(InOrder(d, k, undoing), undoing)
  {
    PhasesFit(d, target, kinds);
    var steps := Phases(d)[k];
    assert WellFormedPhase(steps, kinds);
    forall i | 0 <= i < |steps| ensures Simple(steps[i].Calls(undoing), steps[i].id) {
      StepIsSimple(d, target, k, i, undoing, kinds);
    }
  }

  lemma {:induction false} StepIsSimple(d: Diff, target: Table, k: nat, i: nat, undoing: bool, kinds: set<Kind>)
    requires IsPlan(d, d.previous, target) && WellKeyed(d.previous, kinds) && WellKeyed(target, kinds)
    requires k <= 2 && i < |Phases(d)[k]|
    ensures Simple(Phases(d)[k][i].Calls(undoing), Phases(d)[k][i].id)
  {
    if k == 1 { assert d.updated[i] in d.updated && d.updated[i].id in Ids(d.updated); }
    if k == 2 { assert d.removed[i] in d.removed && d.removed[i] in Named(d.removed); }
  }

  /** The calls of a phase on an ID. */
  function CallsOn(d: Diff, target: Table, leg: Leg, id: Id): seq<Call>
    requires IsPlan(d, d.previous, target) && leg.k <= 2 && id in InPhase(d, leg.k)
  {
    if leg.k == 2 then if leg.undoing then [Start(d.previous[id])] else [Drain(id), Stop(id)]
    else if leg.k == 1 then [Update(if leg.undoing then d.previous[id] else target[id])]
    else if leg.undoing then [Stop(id)] else [Start(target[id])]
  }

  /** What a phase leaves in an ID's slot. */
  function LegAt(d: Diff, target: Table, leg: Leg, id: Id, x: Option<Slot>): Option<Slot>
    requires IsPlan(d, d.previous, target) && leg.k <= 2
  {
    if id in InPhase(d, leg.k) then Left(x, CallsOn(d, target, leg, id), leg.late == Some(id)) else x
  }

  function AfterLeg(s: Slots, d: Diff, leg: Leg): Slots
    requires leg.k <= 2 && SimplePhase(InOrder(d, leg.k, leg.undoing), leg.undoing)
  {
    AfterPhase(s, InOrder(d, leg.k, leg.undoing), leg.undoing, leg.late)
  }

  lemma {:induction false} LegLeaves(s: Slots, d: Diff, target: Table, leg: Leg, id: Id)
    requires IsPlan(d, d.previous, target) && leg.k <= 2 && SimplePhase(InOrder(d, leg.k, leg.undoing), leg.undoing)
    ensures SlotAt(AfterLeg(s, d, leg), id) == LegAt(d, target, leg, id, SlotAt(s, id))
  {
    var steps := InOrder(d, leg.k, leg.undoing);
    if id in InPhase(d, leg.k) {
      var i := StepOf(d, target, leg, id);
      AfterStep(s, steps, leg.undoing, leg.late, i);
    } else {
      forall i | 0 <= i < |steps| ensures steps[i].id != id { OrderedIn(d, leg.k, leg.undoing, i); }
      AfterElsewhere(s, steps, leg.undoing, leg.late, id);
    }
  }

  lemma {:induction false} OrderedIn(d: Diff, k: nat, undoing: bool, i: nat)
    requires k <= 2 && i < |InOrder(d, k, undoing)|
    ensures InOrder(d, k, undoing)[i].id in InPhase(d, k)
  {
    StepIdsOf(d);
    var j := if undoing then |Phases(d)[k]| - 1 - i else i;
    assert InOrder(d, k, undoing)[i] == Phases(d)[k][j];
    assert Phases(d)[k][j].id in StepIds(Phases(d)[k]);
  }

  /** The step of a phase that deals with an ID. */
  lemma {:induction false} StepOf(d: Diff, target: Table, leg: Leg, id: Id) returns (i: nat)
    requires IsPlan(d, d.previous, target) && leg.k <= 2 && id in InPhase(d, leg.k)
    ensures i < |InOrder(d, leg.k, leg.undoing)| && InOrder(d, leg.k, leg.undoing)[i].id == id
    ensures InOrder(d, leg.k, leg.undoing)[i].Calls(leg.undoing) == CallsOn(d, target, leg, id)
  {
    var j: nat;
    if leg.k == 0 {
      j :| 0 <= j < |d.added| && d.added[j].id == id;
      assert d.added[j] in d.added;
    } else if leg.k == 1 {
      j :| 0 <= j < |d.updated| && d.updated[j].id == id;
      assert d.updated[j] in d.updated;
    } else {
      j :| 0 <= j < |d.removed| && d.removed[j] == id;
      assert d.removed[j] in d.removed;
    }
    i := if leg.undoing then |Phases(d)[leg.k]| - 1 - j else j;
    assert InOrder(d, leg.k, leg.undoing)[i] == Phases(d)[leg.k][j];
  }

  /** What the phases leave in an ID's slot, one after the other. */
  function LegsAt(d: Diff, target: Table, legs: seq<Leg>, id: Id, x: Option<Slot>): Option<Slot>
    requires IsPlan(d, d.previous, target) && AreLegs(legs)
    decreases |legs|
  {
    if legs == [] then x else LegsAt(d, target, legs[1..], id, LegAt(d, target, legs[0], id, x))
  }

  /** Whose wait is late has something to wait for when its phase begins. */
  ghost predicate Waits(d: Diff, target: Table, legs: seq<Leg>, s: Slots)
    requires IsPlan(d, d.previous, target) && AreLegs(legs)
  {
    forall i | 0 <= i < |legs| && legs[i].late.Some? ::
      var x := LegsAt(d, target, legs[..i], legs[i].late.value, SlotAt(s, legs[i].late.value));
      x.Some? && !x.value.stage.Dead?
  }

  /** The calls of the phases lead to slots that hold what the phases leave. */
  lemma {:induction false} LegsPlay(d: Diff, target: Table, legs: seq<Leg>, s: Slots, kinds: set<Kind>)
      returns (t: Slots)
    requires IsPlan(d, d.previous, target) && WellKeyed(d.previous, kinds) && WellKeyed(target, kinds)
    requires AreLegs(legs) && Waits(d, target, legs, s)
    ensures Plays(s, Calls(d, legs), t)
    ensures forall id :: SlotAt(t, id) == LegsAt(d, target, legs, id, SlotAt(s, id))
    decreases |legs|
  {
    if legs == [] { return s; }
    var leg := legs[0];
    PhaseIsSimple(d, target, leg.k, leg.undoing, kinds);
    if leg.late.Some? { assert legs[..0] == []; }
    PhasePlays(s, InOrder(d, leg.k, leg.undoing), leg.undoing, leg.late);
    var u := AfterLeg(s, d, leg);
    forall id ensures SlotAt(u, id) == LegAt(d, target, leg, id, SlotAt(s, id)) { LegLeaves(s, d, target, leg, id); }
    WaitsOn(d, target, legs, s, u);
    t := LegsPlay(d, target, legs[1..], u, kinds);
    PlaysOn(s, LegEvents(d, leg), u, Calls(d, legs[1..]), t);
  }

  lemma {:induction false} WaitsOn(d: Diff, target: Table, legs: seq<Leg>, s: Slots, u: Slots)
    requires IsPlan(d, d.previous, target) && AreLegs(legs) && legs != [] && Waits(d, target, legs, s)
    requires forall id :: SlotAt(u, id) == LegAt(d, target, legs[0], id, SlotAt(s, id))
    ensures Waits(d, target, legs[1..], u)
  {
    forall i | 0 <= i < |legs[1..]| && legs[1..][i].late.Some?
      ensures var id := legs[1..][i].late.value;
        var x := LegsAt(d, target, legs[1..][..i], id, SlotAt(u, id)); x.Some? && !x.value.stage.Dead?
    {
      assert legs[1..][i] == legs[i + 1] && legs[..i + 1][1..] == legs[1..][..i];
    }
  }

  lemma {:induction false} SameSlots(s: Slots, t: Slots)
    requires forall id :: SlotAt(s, id) == SlotAt(t, id)
    ensures s == t
  {
    forall id ensures id in s <==> id in t {
      assert SlotAt(s, id) == SlotAt(t, id);
    }
    forall id | id in s ensures s[id] == t[id] {
      assert SlotAt(s, id) == SlotAt(t, id);
    }
  }

  /** The slots hold what the plan was made from, but for some of what it leaves alone. */
  ghost predicate Faces(d: Diff, target: Table, s: Slots) {
    && IsPlan(d, d.previous, target)
    && (forall id | id in s :: id in d.previous && d.previous[id] == s[id].collector)
    && (forall id | id in d.previous :: id in s || id in d.same)
  }

  /** The plan's own facts about an ID: at most one phase deals with it, and what is registered under it. */
  lemma {:induction false} PhaseOfId(d: Diff, s: Slots, target: Table, id: Id)
    requires Faces(d, target, s)
    ensures id in InPhase(d, 0) ==> id !in InPhase(d, 1) && id !in InPhase(d, 2) && id !in s
    ensures id in InPhase(d, 1) ==> id !in InPhase(d, 2) && id in s && d.previous[id] == s[id].collector
    ensures id in InPhase(d, 2) ==> id in s && d.previous[id] == s[id].collector
  {
    assert id in InPhase(d, 1) || id in InPhase(d, 2) ==> id !in d.same;
  }

  lemma {:induction false} AttemptLeaves(d: Diff, s: Slots, target: Table, k: nat, late: Id, id: Id)
    requires Faces(d, target, s) && (k == 1 || k == 2)
    ensures LegsAt(d, target, Attempt(k, late), id, SlotAt(s, id)) == SlotAt(Restarting(s, Touched(d, k)), id)
  {
    PhaseOfId(d, s, target, id);
    var legs, x := Attempt(k, late), SlotAt(s, id);
    LegsFirst(d, target, legs, id, x);
    var x1 := LegAt(d, target, legs[0], id, x);
    LegsFirst(d, target, legs[1..], id, x1);
    var x2 := LegAt(d, target, legs[1], id, x1);
    LegsFirst(d, target, legs[2..], id, x2);
    var x3 := LegAt(d, target, legs[2], id, x2);
    LegsFirst(d, target, legs[3..], id, x3);
    var x4 := LegAt(d, target, legs[3], id, x3);
    if k == 2 {
      LegsFirst(d, target, legs[4..], id, x4);
      LegsFirst(d, target, legs[5..], id, LegAt(d, target, legs[4], id, x4));
    }
  }

  lemma {:induction false} LegsFirst(d: Diff, target: Table, legs: seq<Leg>, id: Id, x: Option<Slot>)
    requires IsPlan(d, d.previous, target) && AreLegs(legs) && legs != []
    ensures LegsAt(d, target, legs, id, x) == LegsAt(d, target, legs[1..], id, LegAt(d, target, legs[0], id, x))
  {
  }

  /**
    For every plan, and every ID with something to wait for among those it updates or removes,
    there is a reconciliation that fails there and a rollback whose calls all succeed: it leaves
    every touched registration running, and the other slots as they were.
  */
  lemma {:induction false} RollbackPlays(d: Diff, s: Slots, target: Table, k: nat, late: Id, kinds: set<Kind>)
    requires Faces(d, target, s) && WellKeyed(d.previous, kinds) && WellKeyed(target, kinds)
    requires (k == 1 || k == 2) && late in InPhase(d, k) && !Inert(s, late)
    ensures Plays(s, Calls(d, Attempt(k, late)), Restarting(s, Touched(d, k)))
  {
    AttemptWaits(d, s, target, k, late);
    var t := LegsPlay(d, target, Attempt(k, late), s, kinds);
    forall id ensures SlotAt(t, id) == SlotAt(Restarting(s, Touched(d, k)), id) {
      AttemptLeaves(d, s, target, k, late, id);
    }
    SameSlots(t, Restarting(s, Touched(d, k)));
  }

  lemma {:induction false} AttemptWaits(d: Diff, s: Slots, target: Table, k: nat, late: Id)
    requires Faces(d, target, s)
    requires (k == 1 || k == 2) && late in InPhase(d, k) && !Inert(s, late)
    ensures Waits(d, target, Attempt(k, late), s)
  {
    PhaseOfId(d, s, target, late);
    var legs, x := Attempt(k, late), SlotAt(s, late);
    assert legs[..1] == [legs[0]] && legs[..1][1..] == [];
    assert legs[..2] == [legs[0], legs[1]] && legs[..2][1..] == [legs[1]] && legs[..2][1..][1..] == [];
    LegsFirst(d, target, legs[..1], late, x);
    LegsFirst(d, target, legs[..2], late, x);
    LegsFirst(d, target, [legs[1]], late, x);
  }

  // ------------------------------------------------------------ a reconciliation that succeeds

  function Forward(): seq<Leg> {
    [Leg(0, false, None), Leg(1, false, None), Leg(2, false, None)]
  }

  lemma {:induction false} ForwardLeaves(d: Diff, s: Slots, target: Table, id: Id)
    requires Faces(d, target, s)
    ensures var y := LegsAt(d, target, Forward(), id, SlotAt(s, id));
      && (id in Ids(d.added) + Ids(d.updated) ==> y == Some(Slot(target[id], Live(true))))
      && (id in Named(d.removed) ==> y.None? || y == Some(Slot(d.previous[id], Dead)))
      && (id !in Touched(d, 2) ==> y == SlotAt(s, id))
  {
    PhaseOfId(d, s, target, id);
    var legs, x := Forward(), SlotAt(s, id);
    LegsFirst(d, target, legs, id, x);
    var x1 := LegAt(d, target, legs[0], id, x);
    LegsFirst(d, target, legs[1..], id, x1);
    LegsFirst(d, target, legs[2..], id, LegAt(d, target, legs[1], id, x1));
  }

  /** For every plan there are calls, all in time, that apply it: exactly the target runs, but for what is missed. */
  lemma {:induction false} ForwardPlays(d: Diff, s: Slots, target: Table, kinds: set<Kind>) returns (t: Slots)
    requires Faces(d, target, s) && WellKeyed(d.previous, kinds) && WellKeyed(target, kinds)
    requires forall id | id in d.same && id in s :: s[id].stage.Live?
    ensures Plays(s, Calls(d, Forward()), t) && Kept(t, kinds)
    ensures Running(t) == target - Missed(d, s) && t.Keys !! Missed(d, s)
  {
    t := LegsPlay(d, target, Forward(), s, kinds);
    forall id
      ensures id in t ==> t[id].collector.id == id && Wanted(t[id].collector, kinds)
      ensures Runs(t, id) == At(target - Missed(d, s), id) && (id in Missed(d, s) ==> id !in t)
    {
      assert SlotAt(t, id) == LegsAt(d, target, Forward(), id, SlotAt(s, id));
      ForwardLeaves(d, s, target, id);
    }
    RunningIs(t, target - Missed(d, s));
  }
}
