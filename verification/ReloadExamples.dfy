/**
  Runs of the service that end otherwise than its snapshot says: one that runs more, one that
  runs less.
*/
module ReloadExamples {
  import opened Basics
  import opened Collectors
  import opened Reconcile
  import opened Executions
  import opened Reloading

  /**
    A reload that applied can leave a stale registration.  With x and y running, a reload that
    changes x gives up waiting for the old poller, as does its undo, and the poller exits later:
    the runtime has diverged.  A reload that only wants y then drains and stops x, which has
    exited already: both calls succeed, just y runs, and x stays registered.
  */
  lemma {:induction false} AppliedLeavesStale(x: Collector, changed: Collector, y: Collector)
    requires x.id == changed.id != y.id && x != changed
    ensures
      var failed := Do(map[x.id := Slot(x, Live(true)), y.id := Slot(y, Live(true))], Update(changed), Late);
      var unrestored := Do(failed.slots, Update(x), Late);
      var exited := unrestored.slots[x.id := Slot(x, Dead)];
      var drained := Do(exited, Drain(x.id), InTime);
      var stopped := Do(drained.slots, Stop(x.id), InTime);
      && !failed.ok && !unrestored.ok && Drifted(unrestored.slots, exited) && drained.ok && stopped.ok
      && stopped.slots == map[x.id := Slot(x, Dead), y.id := Slot(y, Live(true))]
      && Running(stopped.slots) == map[y.id := y] && Stale(stopped.slots) == {x.id}
  {
  }

  /**
    A rollback restarts it.  From there, a reload that wants nothing drains and stops both,
    gives up on y, and undoes both: no call of the rollback fails, so the snapshot still wants y
    alone and does not say that the runtime diverged, and x runs again.
  */
  lemma {:induction false} RollbackRestartsStale(x: Collector, y: Collector)
    requires x.id != y.id
    ensures
      var drained := Do(map[x.id := Slot(x, Dead), y.id := Slot(y, Live(true))], Drain(x.id), InTime);
      var stopped := Do(drained.slots, Stop(x.id), InTime);
      var draining := Do(stopped.slots, Drain(y.id), InTime);
      var late := Do(draining.slots, Stop(y.id), Late);
      var restarted := Do(late.slots, Start(y), InTime);
      var revived := Do(restarted.slots, Start(x), InTime);
      && drained.ok && stopped.ok && draining.ok && !late.ok && restarted.ok && revived.ok
      && Running(revived.slots) == map[x.id := x, y.id := y]
  {
  }

  // ------------------------------------------------------------ a run that revives a stale registration

  const X := Collector(0, 0, true, 0)
  const X2 := Collector(0, 0, true, 1)
  const Y := Collector(1, 0, true, 0)

  function XY(x: Stage): Slots {
    map[0 := Slot(X, x), 1 := Slot(Y, Live(true))]
  }

  lemma {:induction false} DesiredOne(c: Collector, kinds: set<Kind>)
    requires Wanted(c, kinds)
    ensures Desired([c], kinds) == map[c.id := c]
  {
    assert [c][..0] == [];
  }

  lemma {:induction false} DesiredTwo(c: Collector, e: Collector, kinds: set<Kind>)
    requires Wanted(c, kinds) && Wanted(e, kinds) && c.id != e.id
    ensures Desired([c, e], kinds) == map[c.id := c, e.id := e]
  {
    assert [c, e][..1] == [c];
    DesiredOne(c, kinds);
  }

  lemma {:induction false} RegisteredXY(x: Stage)
    ensures Registered(XY(x)) == map[0 := X, 1 := Y] && Registered(XY(x)).Keys == {0, 1}
  {
  }

  lemma {:induction false} SoundXY(x: Stage)
    ensures Kept(XY(x), {0})
  {
  }

  lemma {:induction false} FirstPlan(d: Diff)
    requires d == Diff([], [X2], [], [1], Registered(XY(Live(true))))
    ensures PlanFor(d, XY(Live(true)), map[0 := X2, 1 := Y]) && Ids(d.updated) == {0}
  {
    RegisteredXY(Live(true));
    assert (map[0 := X2, 1 := Y]).Keys == {0, 1};
    OneEach(X2, 1);
  }

  lemma {:induction false} OneEach(c: Collector, id: Id)
    ensures Ids([c]) == {c.id} && Named([id]) == {id} && Ids([]) == {} && Named([]) == {}
  {
    assert [c][0] in [c] && [id][0] in [id];
  }

  lemma {:induction false} ThirdPlan(d: Diff)
    requires d == Diff([], [], [0, 1], [], Registered(XY(Dead)))
    ensures PlanFor(d, XY(Dead), map[]) && Touched(d, 2) == {0, 1} && Named(d.removed) == {0, 1}
  {
    RegisteredXY(Dead);
    var none: Table := map[];
    assert none.Keys == {};
    NamedTwo(0, 1);
    assert Ids([]) == {} && Named([]) == {};
  }

  lemma {:induction false} NamedTwo(a: Id, b: Id)
    ensures Named([a, b]) == {a, b}
  {
    var ids := [a, b];
    assert ids[0] in ids && ids[1] in ids;
    forall id | id in ids ensures id == a || id == b {
      var i :| 0 <= i < |ids| && ids[i] == id;
    }
  }

  /** The reload to the changed x, which gives up and whose rollback does too. */
  lemma {:induction false} FirstReload(w: World, v: World)
    requires w == World(XY(Live(true)), false, [X, Y], false) && v == World(XY(Stuck(false)), false, [X, Y], true)
    ensures exists a :: ReloadStep({0}, w, Some([X2, Y]), a, v)
    ensures v.slots == Do(Do(w.slots, Update(X2), Late).slots, Update(X), Late).slots
  {
    DesiredTwo(X2, Y, {0});
    var d := Diff([], [X2], [], [1], Registered(w.slots));
    FirstPlan(d);
    var a := Ended(d, Failed([Update(X2)], [Update(X)]));
    SoundXY(Stuck(false));
    assert 0 in InPhase(d, 1) && !Inert(w.slots, 0) && Fallible(d, 1, w.slots) && FailedIn(d, [Update(X2)], 1);
    assert ReloadStep({0}, w, Some([X2, Y]), a, v);
  }

  /** The reload to y alone, which applies and leaves x registered. */
  lemma {:induction false} SecondReload(w: World, v: World)
    requires w == World(XY(Dead), false, [X, Y], true) && v == World(XY(Dead), false, [Y], false)
    ensures exists a: Answer :: a.Ended? && a.outcome.Applied? && ReloadStep({0}, w, Some([Y]), a, v)
    ensures v.slots == Do(Do(w.slots, Drain(0), InTime).slots, Stop(0), InTime).slots
  {
    DesiredOne(Y, {0});
    var d := Diff([], [], [0], [1], Registered(w.slots));
    SecondPlan(d);
    assert Running(v.slots) == map[1 := Y];
    var a := Ended(d, Applied);
    assert ReloadStep({0}, w, Some([Y]), a, v);
  }

  lemma {:induction false} SecondPlan(d: Diff)
    requires d == Diff([], [], [0], [1], Registered(XY(Dead)))
    ensures AppliedBy(d, XY(Dead), XY(Dead), map[1 := Y])
  {
    RegisteredXY(Dead);
    OneEach(Y, 0);
    OneEach(Y, 1);
    assert (map[1 := Y]).Keys == {1};
    forall id | id in d.same ensures id == 1 {}
    assert Missed(d, XY(Dead)) == {};
    assert map[1 := Y] - {} == map[1 := Y];
  }

  /** The reload to nothing, which gives up on y and is rolled back without an error. */
  lemma {:induction false} ThirdReload(w: World, v: World)
    requires w == World(XY(Dead), false, [Y], false) && v == World(XY(Live(true)), false, [Y], false)
    ensures exists a: Answer :: a.Ended? && a.outcome.RolledBack() && ReloadStep({0}, w, Some([]), a, v)
    ensures var drained := Do(Do(w.slots, Drain(0), InTime).slots, Drain(1), InTime).slots;
      var stopped := Do(Do(drained, Stop(0), InTime).slots, Stop(1), Late).slots;
      v.slots == Do(Do(stopped, Start(Y), InTime).slots, Start(X), InTime).slots
  {
    ThirdCalls();
    ThirdStep(w, v);
  }

  lemma {:induction false} ThirdStep(w: World, v: World)
    requires w == World(XY(Dead), false, [Y], false) && v == World(XY(Live(true)), false, [Y], false)
    ensures exists a: Answer :: a.Ended? && a.outcome.RolledBack() && ReloadStep({0}, w, Some([]), a, v)
  {
    var d := Diff([], [], [0, 1], [], Registered(w.slots));
    ThirdPlan(d);
    var a := Ended(d, Failed([Stop(1)], []));
    ThirdRestores(d);
    SoundXY(Live(true));
    assert 1 in InPhase(d, 2) && !Inert(w.slots, 1) && Fallible(d, 2, w.slots) && FailedIn(d, [Stop(1)], 2);
    assert ReloadStep({0}, w, Some([]), a, v);
  }

  lemma {:induction false} ThirdRestores(d: Diff)
    requires d.previous == Registered(XY(Dead)) && Touched(d, 2) == {0, 1}
    ensures UndoneBy(d, 2, XY(Dead), XY(Live(true)))
  {
    RegisteredXY(Dead);
  }

  lemma {:induction false} ThirdCalls()
    ensures var drained := Do(Do(XY(Dead), Drain(0), InTime).slots, Drain(1), InTime).slots;
      var stopped := Do(Do(drained, Stop(0), InTime).slots, Stop(1), Late).slots;
      XY(Live(true)) == Do(Do(stopped, Start(Y), InTime).slots, Start(X), InTime).slots
  {
  }

  /**
    A run of the service that ends with a snapshot that wants y alone and does not say that the
    runtime diverged, while x runs too.  Its slots are what the calls of its reloads leave.
  */
  lemma {:induction false} UndivergedWithMore() returns (run: seq<World>, moves: seq<Move>)
    ensures Run({0}, run, moves)
    ensures var last := run[|run| - 1];
      !last.diverged && Running(last.slots) == map[0 := X, 1 := Y] && Desired(last.config, {0}) == map[1 := Y]
  {
    var exited := World(XY(Dead), false, [X, Y], true);
    var applied := World(XY(Dead), false, [Y], false);
    var revived := World(XY(Live(true)), false, [Y], false);
    DesiredOne(Y, {0});
    assert Running(XY(Live(true))) == map[0 := X, 1 := Y];
    SecondReload(exited, applied);
    var a2: Answer :| a2.Ended? && a2.outcome.Applied? && ReloadStep({0}, exited, Some([Y]), a2, applied);
    ThirdReload(applied, revived);
    var a3: Answer :| a3.Ended? && a3.outcome.RolledBack() && ReloadStep({0}, applied, Some([]), a3, revived);
    run, moves := Diverged();
    RunPush({0}, run, moves, Reloads(Some([Y]), a2), applied);
    run, moves := run + [applied], moves + [Reloads(Some([Y]), a2)];
    RunPush({0}, run, moves, Reloads(Some([]), a3), revived);
    run, moves := run + [revived], moves + [Reloads(Some([]), a3)];
  }

  /** The run up to the exit of the poller that the first reload gave up on. */
  lemma {:induction false} Diverged() returns (run: seq<World>, moves: seq<Move>)
    ensures Run({0}, run, moves) && run[|moves|] == World(XY(Dead), false, [X, Y], true)
  {
    var start := World(XY(Live(true)), false, [X, Y], false);
    var stuck := World(XY(Stuck(false)), false, [X, Y], true);
    var exited := World(XY(Dead), false, [X, Y], true);
    DesiredTwo(X, Y, {0});
    assert Running(XY(Live(true))) == map[0 := X, 1 := Y];
    FirstReload(start, stuck);
    var a1 :| ReloadStep({0}, start, Some([X2, Y]), a1, stuck);
    Exits(stuck, exited);
    run, moves := [start], [];
    RunPush({0}, run, moves, Reloads(Some([X2, Y]), a1), stuck);
    run, moves := run + [stuck], moves + [Reloads(Some([X2, Y]), a1)];
    RunPush({0}, run, moves, Background, exited);
    run, moves := run + [exited], moves + [Background];
  }

  lemma {:induction false} Exits(w: World, v: World)
    requires w == World(XY(Stuck(false)), false, [X, Y], true) && v == World(XY(Dead), false, [X, Y], true)
    ensures Moves({0}, w, Background, v)
  {
  }

  lemma {:induction false} RunPush(kinds: set<Kind>, run: seq<World>, moves: seq<Move>, m: Move, v: World)
    requires Run(kinds, run, moves) && Moves(kinds, run[|moves|], m, v)
    ensures Run(kinds, run + [v], moves + [m])
  {
    var r, ms := run + [v], moves + [m];
    forall i | 0 <= i < |ms| ensures Moves(kinds, r[i], ms[i], r[i + 1]) {
      if i < |moves| {
        assert r[i] == run[i] && ms[i] == moves[i] && r[i + 1] == run[i + 1];
        RunMoves(kinds, run, moves, i);
      } else {
        assert r[i] == run[|moves|] && ms[i] == m && r[i + 1] == v;
      }
    }
  }

  // ------------------------------------------------------------ a run that misses a stopping registration

  const Y2 := Collector(1, 0, true, 1)

  /** Only y is registered, and it runs. */
  function JustY(): Slots {
    map[1 := Slot(Y, Live(true))]
  }

  /**
    The calls of a reload to x and a changed y: x starts, y's poller does not stop in time, the
    undoing of y does, and that of x does not.
  */
  lemma {:induction false} StoppingStays()
    ensures var started := Do(JustY(), Start(X), InTime);
      var failed := Do(started.slots, Update(Y2), Late);
      var undone := Do(failed.slots, Update(Y), InTime);
      var stopped := Do(undone.slots, Stop(0), Late);
      && started.ok && !failed.ok && undone.ok && !stopped.ok && stopped.slots == XY(Stuck(true))
      && Drifted(XY(Stuck(true)), JustY())
  {
  }

  lemma {:induction false} LeavingPlan(d: Diff)
    requires d == Diff([X], [Y2], [], [], Registered(JustY()))
    ensures PlanFor(d, JustY(), map[0 := X, 1 := Y2]) && Ids(d.updated) == {1}
  {
    OneEach(X, 0);
    OneEach(Y2, 1);
    assert (map[0 := X, 1 := Y2]).Keys == {0, 1} && Registered(JustY()).Keys == {1};
  }

  /** The reload that leaves x stopping. */
  lemma {:induction false} LeavingReload(w: World, v: World)
    requires w == World(JustY(), false, [Y], false) && v == World(XY(Stuck(true)), false, [Y], true)
    ensures exists a :: ReloadStep({0}, w, Some([X, Y2]), a, v)
  {
    DesiredTwo(X, Y2, {0});
    var d := Diff([X], [Y2], [], [], Registered(w.slots));
    LeavingPlan(d);
    var a := Ended(d, Failed([Update(Y2)], [Stop(0)]));
    SoundXY(Stuck(true));
    assert 1 in InPhase(d, 1) && !Inert(w.slots, 1) && Fallible(d, 1, w.slots) && FailedIn(d, [Update(Y2)], 1);
    assert ReloadStep({0}, w, Some([X, Y2]), a, v);
  }

  lemma {:induction false} MissingPlan(d: Diff)
    requires d == Diff([], [], [], [0, 1], Registered(XY(Stuck(true))))
    ensures AppliedBy(d, XY(Stuck(true)), JustY(), map[0 := X, 1 := Y]) && Phases(d) == [[], [], []]
  {
    RegisteredXY(Stuck(true));
    NamedTwo(0, 1);
    assert (map[0 := X, 1 := Y]).Keys == {0, 1} && Ids([]) == {} && Named([]) == {};
    forall id | id in d.same ensures id == 0 || id == 1 { assert id in Named(d.same); }
    assert 0 in Named(d.same);
    assert Missed(d, XY(Stuck(true))) == {0};
  }

  /** The reload to x and y, in which x exits between the reading of what is registered and its check. */
  lemma {:induction false} MissingReload(w: World, v: World)
    requires w == World(XY(Stuck(true)), false, [Y], true) && v == World(JustY(), false, [X, Y], false)
    ensures exists a: Answer :: a.Ended? && a.outcome.Applied? && ReloadStep({0}, w, Some([X, Y]), a, v)
  {
    DesiredTwo(X, Y, {0});
    var d := Diff([], [], [], [0, 1], Registered(w.slots));
    MissingPlan(d);
    var a := Ended(d, Applied);
    assert ReloadStep({0}, w, Some([X, Y]), a, v);
  }

  /**
    A run of the service that ends with a snapshot that wants x and y and does not say that the
    runtime diverged, while only y runs.
  */
  lemma {:induction false} UndivergedWithLess() returns (run: seq<World>, moves: seq<Move>)
    ensures Run({0}, run, moves)
    ensures var last := run[|run| - 1];
      !last.diverged && Running(last.slots) == map[1 := Y] && Desired(last.config, {0}) == map[0 := X, 1 := Y]
  {
    var start := World(JustY(), false, [Y], false);
    var stopping := World(XY(Stuck(true)), false, [Y], true);
    var missing := World(JustY(), false, [X, Y], false);
    DesiredOne(Y, {0});
    DesiredTwo(X, Y, {0});
    assert Running(JustY()) == map[1 := Y];
    LeavingReload(start, stopping);
    var a1 :| ReloadStep({0}, start, Some([X, Y2]), a1, stopping);
    MissingReload(stopping, missing);
    var a2: Answer :| a2.Ended? && a2.outcome.Applied? && ReloadStep({0}, stopping, Some([X, Y]), a2, missing);
    run, moves := [start], [];
    RunPush({0}, run, moves, Reloads(Some([X, Y2]), a1), stopping);
    run, moves := run + [stopping], moves + [Reloads(Some([X, Y2]), a1)];
    RunPush({0}, run, moves, Reloads(Some([X, Y]), a2), missing);
    run, moves := run + [missing], moves + [Reloads(Some([X, Y]), a2)];
  }
}
