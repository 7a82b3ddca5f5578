/**
  What every run of the approval machine keeps, and what follows for what the collector runs.
*/
module ApprovalLaws {
  import opened Basics
  import opened InventoryTypes
  import opened Approvals
  import opened ApprovalSteps

  // ------------------------------------------------------------ every run

  lemma {:induction false} RunInv(run: seq<State>, i: nat)
    requires Run(run) && i < |run|
    ensures Inv(run[i])
  {
    if i > 0 {
      RunInv(run, i - 1);
      assert Moves(run[i - 1], run[i - 1 + 1]);
      var step :| Enabled(run[i - 1], step) && run[i] == Next(run[i - 1], step);
      InvKept(run[i - 1], step);
    }
  }

  /**
    In every state of every run, an approved assignment of an API-managed target has the
    definition version and policy, and its target the connection, of its latest approval.
  */
  lemma {:induction false} ApprovalCoversWhatRuns(run: seq<State>, i: nat, id: Id)
    requires Run(run) && i < |run| && id in run[i].assignments && IsApproved(run[i].assignments[id].state)
    requires run[i].assignments[id].target in run[i].targets
      && run[i].targets[run[i].assignments[id].target].managed.Api?
    ensures id in run[i].covers
    ensures var a := run[i].assignments[id];
      run[i].covers[id] == Cover(a.definition, a.policy, run[i].targets[a.target].connection)
  {
    RunInv(run, i);
  }

  /** In every state of every run an assignment is managed as its target is,
    so a file's changes of a target stay its own. */
  lemma {:induction false} AssignmentsManagedAsTargets(run: seq<State>, i: nat, id: Id)
    requires Run(run) && i < |run| && id in run[i].assignments
    ensures run[i].assignments[id].target in run[i].targets
    ensures run[i].targets[run[i].assignments[id].target].managed == run[i].assignments[id].managed
  {
    RunInv(run, i);
  }

  // ------------------------------------------------------------ the applied check

  /** The assignment as a render of the state would hold it. */
  function Current(s: State, id: Id): View
    requires id in s.assignments && s.assignments[id].target in s.targets
      && s.assignments[id].definition in s.definitions
  {
    var a := s.assignments[id];
    ViewOf(a, s.targets[a.target], s.definitions[a.definition])
  }

  lemma {:induction false} MarkedRefs(run: seq<State>, i: nat, pid: Pid, id: Id)
    requires Run(run) && i < |run| && pid in run[i].checks && id in run[i].checks[pid] && Marks(run[i], pid, id)
    ensures run[i].assignments[id].target in run[i].targets && run[i].assignments[id].definition in run[i].definitions
    ensures SameWork(Current(run[i], id), run[i].checks[pid][id].view)
    ensures run[i].targets[run[i].assignments[id].target].managed.Api? ==>
      Current(run[i], id) == run[i].checks[pid][id].view
  {
    RunInv(run, i);
    assert ListedOk(run[i].definitions, run[i].targets, run[i].assignments, id, run[i].checks[pid][id]);
  }

  /** A collector that runs one assignment at its place, and nothing else. */
  function JustRuns(v: View): Answer {
    map[(v.target, v.interval) := RunningCollector(true, v.interval, [RunningTarget(v.place, [v.probe])])]
  }

  lemma {:induction false} JustRunsThere(v: View, w: View)
    requires SameWork(v, w)
    ensures RunsAs(JustRuns(v), v) && (RunsAs(JustRuns(v), w) <==> v.place == w.place)
  {
    var targets := [RunningTarget(v.place, [v.probe])];
    assert targets[1..] == [] && FirstAt([], w.place).None?;
  }

  /**
    Whenever the applied check marks an assignment, every answer that let it do so matches what
    the assignment, its definition and its target say at the mark if and only if the target is
    where it was when it was listed.
  */
  lemma {:induction false} MarkedExactly(run: seq<State>, i: nat, pid: Pid, id: Id)
    requires Run(run) && i < |run| && pid in run[i].checks && id in run[i].checks[pid] && Marks(run[i], pid, id)
    ensures run[i].assignments[id].target in run[i].targets && run[i].assignments[id].definition in run[i].definitions
    ensures (forall answer | Enabled(run[i], Mark(pid, id, answer)) :: RunsAs(answer, Current(run[i], id)))
      <==> Current(run[i], id).place == run[i].checks[pid][id].view.place
  {
    MarkedRefs(run, i, pid, id);
    var listed := run[i].checks[pid][id].view;
    JustRunsThere(listed, Current(run[i], id));
    assert Enabled(run[i], Mark(pid, id, JustRuns(listed)));
  }

  /** For an API-managed target it always does, whatever ran since the list. */
  lemma {:induction false} MarkedIsCurrent(run: seq<State>, i: nat, pid: Pid, id: Id, answer: Answer)
    requires Run(run) && i < |run| && Enabled(run[i], Mark(pid, id, answer)) && Marks(run[i], pid, id)
    requires run[i].assignments[id].target in run[i].targets
      && run[i].targets[run[i].assignments[id].target].managed.Api?
    ensures run[i].assignments[id].definition in run[i].definitions && RunsAs(answer, Current(run[i], id))
  {
    MarkedRefs(run, i, pid, id);
  }

  /**
    A file that moves its target's host, port or database leaves an assignment that is approved
    and not yet applied as it is, stamp and all: the check then marks it although the collector
    was found running it at the old place and nowhere else.
  */
  lemma {:induction false} MovedByFile(s: State, step: Step, pid: Pid, id: Id)
    requires Inv(s) && Enabled(s, step) && step.ApplyFile?
    requires pid in s.checks && id in s.checks[pid] && Marks(s, pid, id) && s.assignments[id].target == step.t
    requires var name := s.definitions[s.assignments[id].definition].name;
      name in step.wants && step.wants[name] == s.assignments[id].policy
    requires s.checks[pid][id].view.place == PlaceOf(s.targets[step.t])
    requires PlaceOf(s.targets[step.t]) != PlaceOf(s.targets[step.t].(connection := step.connection))
    ensures var t, answer := Next(s, step), JustRuns(s.checks[pid][id].view);
      && Enabled(t, Mark(pid, id, answer)) && Marks(t, pid, id)
      && t.assignments[id].target in t.targets && t.assignments[id].definition in t.definitions
      && !RunsAs(answer, Current(t, id))
  {
    var listed := s.checks[pid][id].view;
    var t := Next(s, step);
    FiledSame(s, step.t, step.wants, step.created, step.connection != s.targets[step.t].connection, id);
    assert ListedOk(s.definitions, s.targets, s.assignments, id, s.checks[pid][id]);
    assert t.assignments[id] == s.assignments[id];
    assert SameWork(listed, Current(t, id));
    JustRunsThere(listed, listed);
    JustRunsThere(listed, Current(t, id));
  }

  /** A definition and a target for the run below. */
  const BUILTIN := Definition(0, 0, 1, None, 0, None, true)
  const EVERY_MINUTE := Policy(60, None, None, true)

  function Host(h: Name): Connection { Connection(h, 1433, 0, 0) }

  function FileState(h: Name, clock: Stamp, checks: map<Pid, map<Id, Listed>>): State {
    State(map[0 := BUILTIN], map[0 := Target(Config, 0, 0, Host(h), true)],
          map[0 := Assignment(0, Config, 0, EVERY_MINUTE, Approved, 0)], clock, map[], checks)
  }

  /** That happens in a run: a file creates the assignment, the check lists it, and a file moves the target. */
  lemma {:induction false} MovedInARun() returns (run: seq<State>, i: nat)
    ensures Run(run) && i < |run| && 0 in run[i].checks && 0 in run[i].checks[0] && Marks(run[i], 0, 0)
    ensures run[i].assignments[0].target in run[i].targets && run[i].assignments[0].definition in run[i].definitions
    ensures var answer := JustRuns(run[i].checks[0][0].view);
      Enabled(run[i], Mark(0, 0, answer)) && !RunsAs(answer, Current(run[i], 0))
  {
    var empty := State(map[0 := BUILTIN], map[], map[], 0, map[], map[]);
    var target := empty.(targets := map[0 := Target(Config, 0, 0, Host(1), true)]);
    var filed := FileState(1, 1, map[]);
    var view := View(0, 60, Place(0, 1, 1433, 0), 0, Probe(0, None, None, None));
    var listed := FileState(1, 1, map[0 := map[0 := Listed(0, view)]]);
    var moved := FileState(2, 2, listed.checks);
    assert Moves(empty, target) by {
      var step := CreateTarget(0, Target(Config, 0, 0, Host(1), true));
      assert Enabled(empty, step) && target == Next(empty, step);
    }
    FirstFile(target, filed);
    FirstList(filed, listed, view);
    SecondFile(listed, moved);
    run, i := [empty, target, filed, listed, moved], 4;
    JustRunsThere(view, view);
    JustRunsThere(view, Current(moved, 0));
  }

  lemma {:induction false} FirstFile(s: State, t: State)
    requires s == State(map[0 := BUILTIN], map[0 := Target(Config, 0, 0, Host(1), true)], map[], 0, map[], map[])
    requires t == FileState(1, 1, map[])
    ensures Moves(s, t)
  {
    var step := ApplyFile(0, Host(1), true, map[0 := EVERY_MINUTE], map[0 := 0]);
    assert Enabled(s, step);
    var after := FileAll(s, 0, step.wants, step.created, false);
    assert after.Keys == {0} && after[0] == Assignment(0, Config, 0, EVERY_MINUTE, Approved, 0);
    assert after == t.assignments;
    assert t == Next(s, step);
  }

  lemma {:induction false} FirstList(s: State, t: State, view: View)
    requires s == FileState(1, 1, map[]) && t == FileState(1, 1, map[0 := map[0 := Listed(0, view)]])
    requires view == View(0, 60, Place(0, 1, 1433, 0), 0, Probe(0, None, None, None))
    ensures Moves(s, t)
  {
    var step := List(0);
    assert Enabled(s, step);
    assert Current(s, 0) == view;
    var rows := Next(s, step).checks[0];
    assert Rendered(s, 0) && rows.Keys == {0} && rows[0] == Listed(0, view);
    assert rows == map[0 := Listed(0, view)];
    assert t.checks == Next(s, step).checks;
    assert t == Next(s, step);
  }

  lemma {:induction false} SecondFile(s: State, t: State)
    requires s == FileState(1, 1, s.checks) && t == FileState(2, 2, s.checks)
    ensures Moves(s, t)
  {
    var step := ApplyFile(0, Host(2), true, map[0 := EVERY_MINUTE], map[]);
    assert Enabled(s, step);
    var after := FileAll(s, 0, step.wants, step.created, true);
    assert after.Keys == {0} && after[0] == s.assignments[0];
    assert after == t.assignments;
    assert t == Next(s, step);
  }

  // ------------------------------------------------------------ rendering

  /** One collector for a target, with the probes it runs there. */
  datatype Collector = Collector(target: TargetId, interval: nat, place: Place, credential: Name, probes: seq<Probe>)

  /** The probes of the rows for a target, in their order. */
  function ProbesFor(rows: seq<View>, t: TargetId): seq<Probe> {
    if rows == [] then []
    else
      var last := rows[|rows| - 1];
      ProbesFor(rows[..|rows| - 1], t) + (if last.target == t then [last.probe] else [])
  }

  /** The first of the rows for a target. */
  function FirstFor(rows: seq<View>, t: TargetId): Option<View> {
    if rows == [] then None
    else
      var before, last := FirstFor(rows[..|rows| - 1], t), rows[|rows| - 1];
      if before.None? && last.target == t then Some(last) else before
  }

  /** The collector of a target: where its first row says, with the probes of all of them. */
  predicate CollectorFor(rows: seq<View>, c: Collector) {
    var v := FirstFor(rows, c.target);
    v.Some? && c == Collector(c.target, v.value.interval, v.value.place, v.value.credential, ProbesFor(rows, c.target))
  }

  /** Two rows of one target run at two intervals. */
  ghost predicate Clash(rows: seq<View>) {
    exists i, j | 0 <= i < j < |rows| :: rows[i].target == rows[j].target && rows[i].interval != rows[j].interval
  }

  /** One of the collectors is for the row's target, at its interval. */
  ghost predicate Serves(cs: seq<Collector>, v: View) {
    exists i | 0 <= i < |cs| :: cs[i].target == v.target && cs[i].interval == v.interval
  }

  /** The collectors have the rows' targets, each once, at their interval, with all of their probes. */
  ghost predicate Renders(rows: seq<View>, cs: seq<Collector>) {
    && (forall i, j | 0 <= i < j < |cs| :: cs[i].target != cs[j].target)
    && (forall k | 0 <= k < |rows| :: Serves(cs, rows[k]))
    && (forall i | 0 <= i < |cs| :: CollectorFor(rows, cs[i]))
  }

  /** Renders the listed rows, or refuses a target with two intervals. */
  method Render(rows: seq<View>) returns (r: Option<seq<Collector>>)
    ensures r.None? <==> Clash(rows)
    ensures r.Some? ==> Renders(rows, r.value)
  {
    var cs: seq<Collector> := [];
    var byTarget: map<TargetId, nat> := map[];
    for k := 0 to |rows|
      invariant SoFar(rows[..k], cs, byTarget)
    {
      var row := rows[k];
      assert rows[..k + 1] == rows[..k] + [row];
      if row.target !in byTarget {
        SoFarNew(rows[..k], row, cs, byTarget);
        byTarget := byTarget[row.target := |cs|];
        cs := cs + [Collector(row.target, row.interval, row.place, row.credential, [row.probe])];
      } else {
        var i := byTarget[row.target];
        if cs[i].interval != row.interval {
          FirstIn(rows[..k], row.target);
          var j :| 0 <= j < k && rows[..k][j] == FirstFor(rows[..k], row.target).value;
          assert rows[j].target == rows[k].target && rows[j].interval != rows[k].interval;
          return None;
        }
        SoFarMore(rows[..k], row, cs, byTarget);
        cs := cs[i := cs[i].(probes := cs[i].probes + [row.probe])];
      }
    }
    assert rows[..|rows|] == rows;
    SoFarRenders(rows, cs, byTarget);
    r := Some(cs);
  }

  /** The map has every collector's place, by its target. */
  ghost predicate Indexed(cs: seq<Collector>, byTarget: map<TargetId, nat>) {
    && (forall t | t in byTarget :: byTarget[t] < |cs| && cs[byTarget[t]].target == t)
    && (forall i | 0 <= i < |cs| :: cs[i].target in byTarget && byTarget[cs[i].target] == i)
  }

  /** The collectors are those of the rows so far. */
  ghost predicate SoFar(rows: seq<View>, cs: seq<Collector>, byTarget: map<TargetId, nat>) {
    Indexed(cs, byTarget) && Steady(rows, cs, byTarget) && forall i | 0 <= i < |cs| :: CollectorFor(rows, cs[i])
  }

  /** Every row's target has its collector, at the row's interval. */
  ghost predicate Steady(rows: seq<View>, cs: seq<Collector>, byTarget: map<TargetId, nat>) {
    forall j | 0 <= j < |rows| ::
      && rows[j].target in byTarget && byTarget[rows[j].target] < |cs|
      && cs[byTarget[rows[j].target]].interval == rows[j].interval
  }

  lemma {:induction false} SoFarRenders(rows: seq<View>, cs: seq<Collector>, byTarget: map<TargetId, nat>)
    requires SoFar(rows, cs, byTarget)
    ensures Renders(rows, cs) && !Clash(rows)
  {
    forall k | 0 <= k < |rows| ensures Serves(cs, rows[k]) {
      var i := byTarget[rows[k].target];
      assert 0 <= i < |cs| && cs[i].target == rows[k].target && cs[i].interval == rows[k].interval;
    }
    forall i, j | 0 <= i < j < |cs| ensures cs[i].target != cs[j].target {
      assert byTarget[cs[i].target] == i && byTarget[cs[j].target] == j;
    }
    forall i, j | 0 <= i < j < |rows| && rows[i].target == rows[j].target ensures rows[i].interval == rows[j].interval {
      assert cs[byTarget[rows[i].target]].interval == rows[i].interval;
    }
  }

  lemma {:induction false} FirstIn(rows: seq<View>, t: TargetId)
    ensures FirstFor(rows, t).Some? ==> FirstFor(rows, t).value in rows && FirstFor(rows, t).value.target == t
  {
    if rows != [] { FirstIn(rows[..|rows| - 1], t); }
  }

  lemma {:induction false} Grow(rows: seq<View>, row: View, t: TargetId)
    ensures ProbesFor(rows + [row], t) == ProbesFor(rows, t) + (if row.target == t then [row.probe] else [])
    ensures FirstFor(rows + [row], t) == if FirstFor(rows, t).None? && row.target == t then Some(row)
      else FirstFor(rows, t)
  {
    assert (rows + [row])[..|rows|] == rows;
  }

  lemma {:induction false} SoFarNew(rows: seq<View>, row: View, cs: seq<Collector>, byTarget: map<TargetId, nat>)
    requires SoFar(rows, cs, byTarget) && row.target !in byTarget
    ensures SoFar(rows + [row], cs + [Collector(row.target, row.interval, row.place, row.credential, [row.probe])],
                  byTarget[row.target := |cs|])
  {
    var c := Collector(row.target, row.interval, row.place, row.credential, [row.probe]);
    NoProbes(rows, row.target);
    forall t { Grow(rows, row, t); }
    assert CollectorFor(rows + [row], c);
    forall i | 0 <= i < |cs| ensures CollectorFor(rows + [row], cs[i]) {
      assert CollectorFor(rows, cs[i]) && cs[i].target != row.target;
    }
    assert Steady(rows + [row], cs + [c], byTarget[row.target := |cs|]);
  }

  lemma {:induction false} SoFarMore(rows: seq<View>, row: View, cs: seq<Collector>, byTarget: map<TargetId, nat>)
    requires SoFar(rows, cs, byTarget) && row.target in byTarget && cs[byTarget[row.target]].interval == row.interval
    ensures var i := byTarget[row.target];
      SoFar(rows + [row], cs[i := cs[i].(probes := cs[i].probes + [row.probe])], byTarget)
  {
    var i := byTarget[row.target];
    var after := cs[i := cs[i].(probes := cs[i].probes + [row.probe])];
    forall t { Grow(rows, row, t); }
    forall j | 0 <= j < |cs| ensures CollectorFor(rows + [row], after[j]) {
      assert CollectorFor(rows, cs[j]);
    }
    assert Steady(rows + [row], after, byTarget);
  }

  lemma {:induction false} NoProbes(rows: seq<View>, t: TargetId)
    requires forall k | 0 <= k < |rows| :: rows[k].target != t
    ensures ProbesFor(rows, t) == [] && FirstFor(rows, t).None?
  {
    if rows != [] { NoProbes(rows[..|rows| - 1], t); }
  }

  /** The rendered assignments, each once, in any order. */
  ghost predicate Listing(s: State, ids: seq<Id>) {
    && (forall i, j | 0 <= i < j < |ids| :: ids[i] != ids[j])
    && (forall id :: id in ids <==> id in s.assignments && Rendered(s, id))
  }

  function Views(s: State, ids: seq<Id>): seq<View>
    requires forall k | 0 <= k < |ids| :: ids[k] in s.assignments && Rendered(s, ids[k])
  {
    seq(|ids|, k requires 0 <= k < |ids| && ids[k] in s.assignments && Rendered(s, ids[k]) => RowOf(s, ids[k]))
  }

  function RowOf(s: State, id: Id): View
    requires id in s.assignments && Rendered(s, id)
  {
    ViewOf(s.assignments[id], s.targets[s.assignments[id].target], s.definitions[s.assignments[id].definition])
  }

  /**
    In every state of every run the render finds no target with two intervals, no target runs
    one probe twice, and no probe may run longer than its interval.
  */
  lemma {:induction false} RenderNeverClashes(run: seq<State>, i: nat, ids: seq<Id>)
    requires Run(run) && i < |run| && Listing(run[i], ids)
    requires forall k | 0 <= k < |ids| :: ids[k] in run[i].assignments && Rendered(run[i], ids[k])
    ensures var rows := Views(run[i], ids);
      && !Clash(rows)
      && (forall j, k | 0 <= j < k < |rows| && rows[j].target == rows[k].target ::
        rows[j].probe.name != rows[k].probe.name)
      && (forall k | 0 <= k < |rows| && rows[k].probe.timeout.Some? ::
        rows[k].probe.timeout.value <= rows[k].interval * 1000)
  {
    RunInv(run, i);
  }
}
