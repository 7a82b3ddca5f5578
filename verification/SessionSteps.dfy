/**
  Every step of the session protocol keeps its invariant: one fact at a time, and for each the
  steps in groups, to keep every proof small.
*/
module SessionSteps {
  import opened Basics
  import opened Sessions

  // Steps in groups, to keep each proof small.

  predicate Enters(step: Step) {
    step.Check? || step.Record? || step.Create? || step.CreateFails? || step.LateCreate?
  }

  predicate Settles(step: Step) {
    step.CommitLogin? || step.CommitLoginUnseen? || step.AbortLogin? || step.Return? || step.Undo? || step.Look?
  }

  predicate Changes(step: Step) {
    step.Lock? || step.List? || step.DeleteListed? || step.CommitChange? || step.Stop?
  }

  lemma {:induction false} LoggedGrows(log: Log, e: Event, k: Key)
    ensures Logged(log + [e], k) <==> Logged(log, k) || (e.LoggedIn? && e.key == k)
  {
    if Logged(log, k) {
      var i :| 0 <= i < |log| && log[i].LoggedIn? && log[i].key == k;
      assert (log + [e])[i] == log[i];
    }
    if e.LoggedIn? && e.key == k { assert (log + [e])[|log|] == e; }
  }

  // ------------------------------------------------------------ locks

  lemma {:induction false} LocksTake(locks: map<User, Pid>, procs: Procs, u: User, pid: Pid, p: Proc)
    requires LocksOk(locks, procs) && u !in locks && Holds(p) == Some(u) && (pid in procs ==> Holds(procs[pid]).None?)
    ensures LocksOk(locks[u := pid], procs[pid := p])
  {
  }

  lemma {:induction false} LocksSame(locks: map<User, Pid>, procs: Procs, pid: Pid, p: Proc)
    requires LocksOk(locks, procs) && Holds(p) == if pid in procs then Holds(procs[pid]) else None
    ensures LocksOk(locks, procs[pid := p])
  {
  }

  lemma {:induction false} LocksRelease(locks: map<User, Pid>, procs: Procs, pid: Pid)
    requires LocksOk(locks, procs) && pid in procs
    ensures LocksOk(Unlocked(locks, procs[pid]), procs - {pid})
    ensures forall p | Holds(p).None? :: LocksOk(Unlocked(locks, procs[pid]), procs[pid := p])
  {
  }

  lemma {:induction false} LocksKeptEnter(c: Lifetimes, s: State, step: Step)
    requires Enabled(s, step) && LocksOk(s.locks, s.procs) && Enters(step)
    ensures var t := Next(c, s, step); LocksOk(t.locks, t.procs)
  {
    var t, pid := Next(c, s, step), step.pid;
    if pid !in t.procs || (Holds(t.procs[pid]).None? && pid in s.procs) {
      LocksRelease(s.locks, s.procs, pid);
    } else if step.Record? {
      LocksTake(s.locks, s.procs, s.procs[pid].user, pid, t.procs[pid]);
    } else {
      LocksSame(s.locks, s.procs, pid, t.procs[pid]);
    }
  }

  lemma {:induction false} LocksKeptSettle(c: Lifetimes, s: State, step: Step)
    requires Enabled(s, step) && LocksOk(s.locks, s.procs) && Settles(step)
    ensures var t := Next(c, s, step); LocksOk(t.locks, t.procs)
  {
    var t, pid := Next(c, s, step), step.pid;
    if step.Look? { LocksSame(s.locks, s.procs, pid, t.procs[pid]); } else { LocksRelease(s.locks, s.procs, pid); }
  }

  lemma {:induction false} LocksKeptChange(c: Lifetimes, s: State, step: Step)
    requires Enabled(s, step) && LocksOk(s.locks, s.procs) && Changes(step)
    ensures var t := Next(c, s, step); LocksOk(t.locks, t.procs)
  {
    var t, pid := Next(c, s, step), step.pid;
    if step.Lock? {
      LocksTake(s.locks, s.procs, step.user, pid, t.procs[pid]);
    } else if pid in t.procs {
      LocksSame(s.locks, s.procs, pid, t.procs[pid]);
    } else {
      LocksRelease(s.locks, s.procs, pid);
    }
  }

  lemma {:induction false} LocksKept(c: Lifetimes, s: State, step: Step)
    requires Enabled(s, step) && LocksOk(s.locks, s.procs)
    ensures var t := Next(c, s, step); LocksOk(t.locks, t.procs)
  {
    if Enters(step) { LocksKeptEnter(c, s, step); } else if Settles(step) { LocksKeptSettle(c, s, step); }
    else if Changes(step) { LocksKeptChange(c, s, step); }
    else if step.Touch? { LocksRelease(s.locks, s.procs, step.pid); }
  }

  // ------------------------------------------------------------ sessions and their index

  lemma {:induction false} IndexPut(c: Lifetimes, s: State, u: User, k: Key, created: nat)
    requires IndexOk(c, s.clock, s.sessions, s.index) && created <= s.clock
    requires SessionOwners(s.sessions, s.births) && BirthTimes(s.births, s.clock)
    requires k in s.births ==> s.births[k].user == u
    ensures var t := PutSession(c, s, u, k, created); IndexOk(c, t.clock, t.sessions, t.index)
  {
  }

  lemma {:induction false} IndexDrop(c: Lifetimes, s: State, u: User, ks: set<Key>)
    requires IndexOk(c, s.clock, s.sessions, s.index)
    ensures var t := DropSessions(s, u, ks); IndexOk(c, t.clock, t.sessions, t.index)
  {
  }

  lemma {:induction false} IndexTouch(c: Lifetimes, s: State, k: Key, x: Session, seen: nat)
    requires IndexOk(c, s.clock, s.sessions, s.index) && k in s.sessions
    requires x.user == s.sessions[k].user && x.created == s.sessions[k].created
    ensures IndexOk(c, s.clock, SetSession(s, k, x.(deadline := c.Deadline(x.created, seen))), s.index)
  {
  }

  lemma {:induction false} IndexKeptPut(c: Lifetimes, s: State, step: Step)
    requires Enabled(s, step) && (step.Create? || step.LateCreate?)
    requires IndexOk(c, s.clock, s.sessions, s.index)
    requires SessionOwners(s.sessions, s.births) && ProcOwners(s.procs, s.births) && BirthTimes(s.births, s.clock)
    ensures var t := Next(c, s, step); IndexOk(c, t.clock, t.sessions, t.index)
  {
    if step.Create? {
      var p := s.procs[step.pid];
      IndexPut(c, s, p.user, step.key, step.created);
    } else {
      IndexKeptLate(c, s, step.pid);
    }
  }

  lemma {:induction false} IndexKeptLate(c: Lifetimes, s: State, pid: Pid)
    requires Enabled(s, LateCreate(pid)) && IndexOk(c, s.clock, s.sessions, s.index)
    requires SessionOwners(s.sessions, s.births) && ProcOwners(s.procs, s.births) && BirthTimes(s.births, s.clock)
    ensures var t := Next(c, s, LateCreate(pid)); IndexOk(c, t.clock, t.sessions, t.index)
  {
    var p := s.procs[pid];
    assert OwnKeys(p, s.births);
    IndexPut(c, s, p.user, p.key, p.created);
  }

  lemma {:induction false} IndexKeptRest(c: Lifetimes, s: State, step: Step)
    requires Enabled(s, step) && !step.Create? && !step.LateCreate?
    requires IndexOk(c, s.clock, s.sessions, s.index)
    requires SessionOwners(s.sessions, s.births) && ProcOwners(s.procs, s.births)
    ensures var t := Next(c, s, step); IndexOk(c, t.clock, t.sessions, t.index)
  {
    match step
    case Undo(pid) => IndexDrop(c, s, s.procs[pid].user, {s.procs[pid].key});
    case Delete(k) => IndexDrop(c, s, s.sessions[k].user, {k});
    case DeleteListed(pid) => IndexDrop(c, s, s.procs[pid].user, s.procs[pid].keys);
    case Touch(pid, seen) =>
      assert OwnKeys(s.procs[pid], s.births);
      if s.procs[pid].key in s.sessions { IndexTouch(c, s, s.procs[pid].key, s.procs[pid].session, seen); }
    case _ =>
  }

  lemma {:induction false} IndexKept(c: Lifetimes, s: State, step: Step)
    requires Enabled(s, step) && IndexOk(c, s.clock, s.sessions, s.index) && OwnersInv(s)
    ensures var t := Next(c, s, step); IndexOk(c, t.clock, t.sessions, t.index)
  {
    if step.Create? || step.LateCreate? { IndexKeptPut(c, s, step); } else { IndexKeptRest(c, s, step); }
  }

  // ------------------------------------------------------------ tokens returned

  lemma {:induction false} ReturnsGrow(procs: Procs, returned: set<Key>, log: Log, e: Event)
    requires ReturnsOk(procs, returned, log)
    ensures ReturnsOk(procs, returned, log + [e])
  {
    forall k | Logged(log, k) ensures Logged(log + [e], k) { LoggedGrows(log, e, k); }
  }

  lemma {:induction false} ReturnsKeptByLogin(c: Lifetimes, s: State, step: Step)
    requires Enabled(s, step) && ReturnsOk(s.procs, s.returned, s.log) && (step.CommitLogin? || step.CommitLoginUnseen?)
    ensures var t := Next(c, s, step); ReturnsOk(t.procs, t.returned, t.log)
  {
    var p := s.procs[step.pid];
    var e := LoggedIn(p.user, p.key, p.hash, p.upgrade);
    ReturnsGrow(s.procs, s.returned, s.log, e);
    LoggedGrows(s.log, e, p.key);
  }

  lemma {:induction false} ReturnsKeptByChange(c: Lifetimes, s: State, step: Step)
    requires Enabled(s, step) && ReturnsOk(s.procs, s.returned, s.log) && step.CommitChange?
    ensures var t := Next(c, s, step); ReturnsOk(t.procs, t.returned, t.log)
  {
    var p := s.procs[step.pid];
    ReturnsGrow(s.procs, s.returned, s.log,
      Ended(p.user, p.why, if p.why.Password? then s.rows[p.user].hash else None));
  }

  lemma {:induction false} ReturnsKeptEnter(c: Lifetimes, s: State, step: Step)
    requires Enabled(s, step) && ReturnsOk(s.procs, s.returned, s.log) && Enters(step)
    ensures var t := Next(c, s, step); ReturnsOk(t.procs, t.returned, t.log)
  {
  }

  lemma {:induction false} ReturnsKeptElse(c: Lifetimes, s: State, step: Step)
    requires Enabled(s, step) && ReturnsOk(s.procs, s.returned, s.log)
    requires !Enters(step) && !step.CommitLogin? && !step.CommitLoginUnseen? && !step.CommitChange?
    ensures var t := Next(c, s, step); ReturnsOk(t.procs, t.returned, t.log)
  {
  }

  lemma {:induction false} ReturnsKept(c: Lifetimes, s: State, step: Step)
    requires Enabled(s, step) && ReturnsOk(s.procs, s.returned, s.log)
    ensures var t := Next(c, s, step); ReturnsOk(t.procs, t.returned, t.log)
  {
    if step.CommitLogin? || step.CommitLoginUnseen? { ReturnsKeptByLogin(c, s, step); }
    else if step.CommitChange? { ReturnsKeptByChange(c, s, step); }
    else if Enters(step) { ReturnsKeptEnter(c, s, step); }
    else { ReturnsKeptElse(c, s, step); }
  }

  // ------------------------------------------------------------ new hashes

  lemma {:induction false} PendingPut(procs: Procs, hashes: set<Hash>, pid: Pid, p: Proc)
    requires PendingOnce(procs, hashes)
    requires Pending(p).Some? ==> (Pending(p).value !in hashes || (pid in procs && Pending(p) == Pending(procs[pid])))
    ensures PendingOnce(procs[pid := p], hashes + (if Pending(p).Some? then {Pending(p).value} else {}))
    ensures pid in procs && Pending(p) == Pending(procs[pid]) ==> PendingOnce(procs[pid := p], hashes)
  {
  }

  lemma {:induction false} PendingOnceKeptRecord(c: Lifetimes, s: State, step: Step)
    requires Enabled(s, step) && PendingOnce(s.procs, s.hashes) && step.Record?
    ensures var t := Next(c, s, step); PendingOnce(t.procs, t.hashes)
  {
    var t := Next(c, s, step);
    if step.pid in t.procs {
      PendingPut(s.procs, s.hashes, step.pid, t.procs[step.pid]);
      assert t.hashes == s.hashes + (if step.upgrade.Some? then {step.upgrade.value} else {});
    }
  }

  lemma {:induction false} PendingOnceKeptChange(c: Lifetimes, s: State, step: Step)
    requires Enabled(s, step) && PendingOnce(s.procs, s.hashes) && Changes(step)
    ensures var t := Next(c, s, step); PendingOnce(t.procs, t.hashes)
  {
    var t := Next(c, s, step);
    if step.pid in t.procs {
      PendingPut(s.procs, s.hashes, step.pid, t.procs[step.pid]);
      if step.Lock? { assert t.hashes == s.hashes + (if step.why.Password? then {step.why.next} else {}); }
    }
  }

  lemma {:induction false} PendingOnceKept(c: Lifetimes, s: State, step: Step)
    requires Enabled(s, step) && PendingOnce(s.procs, s.hashes)
    ensures var t := Next(c, s, step); PendingOnce(t.procs, t.hashes)
  {
    if step.Record? {
      PendingOnceKeptRecord(c, s, step);
    } else if Changes(step) {
      PendingOnceKeptChange(c, s, step);
    } else {
      var t := Next(c, s, step);
      assert t.hashes == s.hashes;
      if !step.Tick? && !step.Delete? && !step.Enable? && step.pid in t.procs {
        PendingPut(s.procs, s.hashes, step.pid, t.procs[step.pid]);
      }
    }
  }

  lemma {:induction false} DistinctPut(procs: Procs, pid: Pid, p: Proc)
    requires KeysDistinct(procs) && KeyOf(p).None? && !p.Looking?
    ensures KeysDistinct(procs[pid := p])
  {
  }

  lemma {:induction false} DistinctKeptRecord(c: Lifetimes, s: State, step: Step)
    requires Enabled(s, step) && KeysDistinct(s.procs) && step.Record?
    ensures var t := Next(c, s, step); KeysDistinct(t.procs)
  {
    var t := Next(c, s, step);
    if step.pid in t.procs { DistinctPut(s.procs, step.pid, t.procs[step.pid]); }
  }

  lemma {:induction false} DistinctKeptEnter(c: Lifetimes, s: State, step: Step)
    requires Enabled(s, step)
    requires KeysDistinct(s.procs) && ProcOwners(s.procs, s.births) && LostKeys(s.procs, s.sessions)
    requires Enters(step) && !step.Record?
    ensures var t := Next(c, s, step); KeysDistinct(t.procs)
  {
  }

  lemma {:induction false} DistinctKeptSettle(c: Lifetimes, s: State, step: Step)
    requires Enabled(s, step)
    requires KeysDistinct(s.procs) && ProcOwners(s.procs, s.births) && LostKeys(s.procs, s.sessions)
    requires Settles(step)
    ensures var t := Next(c, s, step); KeysDistinct(t.procs)
  {
  }

  lemma {:induction false} DistinctKeptChange(c: Lifetimes, s: State, step: Step)
    requires Enabled(s, step)
    requires KeysDistinct(s.procs) && ProcOwners(s.procs, s.births) && LostKeys(s.procs, s.sessions)
    requires Changes(step)
    ensures var t := Next(c, s, step); KeysDistinct(t.procs)
  {
  }

  lemma {:induction false} DistinctKeptRest(c: Lifetimes, s: State, step: Step)
    requires Enabled(s, step)
    requires KeysDistinct(s.procs) && ProcOwners(s.procs, s.births) && LostKeys(s.procs, s.sessions)
    requires !Enters(step) && !Settles(step) && !Changes(step)
    ensures var t := Next(c, s, step); KeysDistinct(t.procs)
  {
  }

  lemma {:induction false} DistinctKept(c: Lifetimes, s: State, step: Step)
    requires Enabled(s, step)
    requires KeysDistinct(s.procs) && ProcOwners(s.procs, s.births) && LostKeys(s.procs, s.sessions)
    ensures var t := Next(c, s, step); KeysDistinct(t.procs)
  {
    if step.Record? { DistinctKeptRecord(c, s, step); } else if Enters(step) { DistinctKeptEnter(c, s, step); }
    else if Settles(step) { DistinctKeptSettle(c, s, step); } else if Changes(step) { DistinctKeptChange(c, s, step); }
    else { DistinctKeptRest(c, s, step); }
  }

  lemma {:induction false} UnloggedKeptEnter(c: Lifetimes, s: State, step: Step)
    requires Enabled(s, step)
    requires KeysUnlogged(s.procs, s.log) && ProcOwners(s.procs, s.births) && LogOwners(s.log, s.births)
      && KeysDistinct(s.procs)
    requires Enters(step)
    ensures var t := Next(c, s, step); KeysUnlogged(t.procs, t.log)
  {
  }

  lemma {:induction false} UnloggedKeptSettle(c: Lifetimes, s: State, step: Step)
    requires Enabled(s, step)
    requires KeysUnlogged(s.procs, s.log) && ProcOwners(s.procs, s.births) && LogOwners(s.log, s.births)
      && KeysDistinct(s.procs)
    requires Settles(step)
    ensures var t := Next(c, s, step); KeysUnlogged(t.procs, t.log)
  {
  }

  lemma {:induction false} UnloggedKeptRest(c: Lifetimes, s: State, step: Step)
    requires Enabled(s, step)
    requires KeysUnlogged(s.procs, s.log) && ProcOwners(s.procs, s.births) && LogOwners(s.log, s.births)
      && KeysDistinct(s.procs)
    requires !Enters(step) && !Settles(step)
    ensures var t := Next(c, s, step); KeysUnlogged(t.procs, t.log)
  {
  }

  lemma {:induction false} UnloggedKept(c: Lifetimes, s: State, step: Step)
    requires Enabled(s, step)
    requires KeysUnlogged(s.procs, s.log) && ProcOwners(s.procs, s.births) && LogOwners(s.log, s.births)
      && KeysDistinct(s.procs)
    ensures var t := Next(c, s, step); KeysUnlogged(t.procs, t.log)
  {
    if Enters(step) { UnloggedKeptEnter(c, s, step); }
    else if Settles(step) { UnloggedKeptSettle(c, s, step); }
    else { UnloggedKeptRest(c, s, step); }
  }

  lemma {:induction false} LostKeptEnter(c: Lifetimes, s: State, step: Step)
    requires Enabled(s, step)
    requires LostKeys(s.procs, s.sessions) && SessionOwners(s.sessions, s.births) && ProcOwners(s.procs, s.births)
      && KeysDistinct(s.procs)
    requires Enters(step)
    ensures var t := Next(c, s, step); LostKeys(t.procs, t.sessions)
  {
  }

  lemma {:induction false} LostKeptSettle(c: Lifetimes, s: State, step: Step)
    requires Enabled(s, step)
    requires LostKeys(s.procs, s.sessions) && SessionOwners(s.sessions, s.births) && ProcOwners(s.procs, s.births)
      && KeysDistinct(s.procs)
    requires Settles(step)
    ensures var t := Next(c, s, step); LostKeys(t.procs, t.sessions)
  {
  }

  lemma {:induction false} LostKeptRest(c: Lifetimes, s: State, step: Step)
    requires Enabled(s, step)
    requires LostKeys(s.procs, s.sessions) && SessionOwners(s.sessions, s.births) && ProcOwners(s.procs, s.births)
      && KeysDistinct(s.procs)
    requires !Enters(step) && !Settles(step)
    ensures var t := Next(c, s, step); LostKeys(t.procs, t.sessions)
  {
  }

  lemma {:induction false} LostKept(c: Lifetimes, s: State, step: Step)
    requires Enabled(s, step)
    requires LostKeys(s.procs, s.sessions) && SessionOwners(s.sessions, s.births) && ProcOwners(s.procs, s.births)
      && KeysDistinct(s.procs)
    ensures var t := Next(c, s, step); LostKeys(t.procs, t.sessions)
  {
    if Enters(step) { LostKeptEnter(c, s, step); }
    else if Settles(step) { LostKeptSettle(c, s, step); }
    else { LostKeptRest(c, s, step); }
  }

  lemma {:induction false} ProcOwnersKeptRecord(c: Lifetimes, s: State, step: Step)
    requires Enabled(s, step)
    requires ProcOwners(s.procs, s.births) && SessionOwners(s.sessions, s.births) && IndexOwners(s.index, s.births)
    requires step.Record?
    ensures var t := Next(c, s, step); ProcOwners(t.procs, t.births)
  {
  }

  lemma {:induction false} ProcOwnersKeptEnter(c: Lifetimes, s: State, step: Step)
    requires Enabled(s, step)
    requires ProcOwners(s.procs, s.births) && SessionOwners(s.sessions, s.births) && IndexOwners(s.index, s.births)
    requires Enters(step) && !step.Record?
    ensures var t := Next(c, s, step); ProcOwners(t.procs, t.births)
  {
  }

  lemma {:induction false} ProcOwnersKeptSettle(c: Lifetimes, s: State, step: Step)
    requires Enabled(s, step)
    requires ProcOwners(s.procs, s.births) && SessionOwners(s.sessions, s.births) && IndexOwners(s.index, s.births)
    requires Settles(step)
    ensures var t := Next(c, s, step); ProcOwners(t.procs, t.births)
  {
  }

  lemma {:induction false} ProcOwnersKeptChange(c: Lifetimes, s: State, step: Step)
    requires Enabled(s, step)
    requires ProcOwners(s.procs, s.births) && SessionOwners(s.sessions, s.births) && IndexOwners(s.index, s.births)
    requires Changes(step)
    ensures var t := Next(c, s, step); ProcOwners(t.procs, t.births)
  {
  }

  lemma {:induction false} ProcOwnersKeptRest(c: Lifetimes, s: State, step: Step)
    requires Enabled(s, step)
    requires ProcOwners(s.procs, s.births) && SessionOwners(s.sessions, s.births) && IndexOwners(s.index, s.births)
    requires !Enters(step) && !Settles(step) && !Changes(step)
    ensures var t := Next(c, s, step); ProcOwners(t.procs, t.births)
  {
  }

  lemma {:induction false} ProcOwnersKept(c: Lifetimes, s: State, step: Step)
    requires Enabled(s, step)
    requires ProcOwners(s.procs, s.births) && SessionOwners(s.sessions, s.births) && IndexOwners(s.index, s.births)
    ensures var t := Next(c, s, step); ProcOwners(t.procs, t.births)
  {
    if step.Record? { ProcOwnersKeptRecord(c, s, step); } else if Enters(step) { ProcOwnersKeptEnter(c, s, step); }
    else if Settles(step) { ProcOwnersKeptSettle(c, s, step); }
    else if Changes(step) { ProcOwnersKeptChange(c, s, step); }
    else { ProcOwnersKeptRest(c, s, step); }
  }

  /** Nothing ends later or comes to life again where no change advances and no logged session appears. */
  lemma {:induction false} ChangesSub(procs: Procs, log: Log, sessions: map<Key, Session>, after: Procs,
      live: map<Key, Session>)
    requires ChangesOk(procs, log, sessions)
    requires forall pid | pid in after && (after[pid].Listed? || after[pid].Deleted?) ::
      pid in procs && after[pid] == procs[pid]
    requires forall i | 0 <= i < |log| && log[i].LoggedIn? && log[i].key in live :: log[i].key in sessions
    ensures ChangesOk(after, log, live)
  {
    forall pid, i | pid in after && 0 <= i < |log| ensures Ends(after[pid], log[i], live) {
      if after[pid].Listed? || after[pid].Deleted? { assert Ends(procs[pid], log[i], sessions); }
    }
  }

  lemma {:induction false} ChangesKeptEnter(c: Lifetimes, s: State, step: Step)
    requires Enabled(s, step) && Enters(step)
    requires ChangesOk(s.procs, s.log, s.sessions) && LogOwners(s.log, s.births) && KeysUnlogged(s.procs, s.log)
    ensures var t := Next(c, s, step); ChangesOk(t.procs, t.log, t.sessions)
  {
    var t := Next(c, s, step);
    forall i | 0 <= i < |s.log| && s.log[i].LoggedIn? && s.log[i].key in t.sessions ensures s.log[i].key in s.sessions {
      assert Logged(s.log, s.log[i].key) && Born(s.births, s.log[i].key, s.log[i].user);
    }
    ChangesSub(s.procs, s.log, s.sessions, t.procs, t.sessions);
  }

  lemma {:induction false} ChangesKeptPlain(c: Lifetimes, s: State, step: Step)
    requires Enabled(s, step) && !Enters(step) && !step.CommitLogin? && !step.CommitLoginUnseen?
    requires !step.List? && !step.DeleteListed? && !step.CommitChange?
    requires ChangesOk(s.procs, s.log, s.sessions)
    ensures var t := Next(c, s, step); ChangesOk(t.procs, t.log, t.sessions)
  {
    var t := Next(c, s, step);
    ChangesSub(s.procs, s.log, s.sessions, t.procs, t.sessions);
  }

  lemma {:induction false} OneHolder(locks: map<User, Pid>, procs: Procs, pid: Pid)
    requires LocksOk(locks, procs) && pid in procs && Holds(procs[pid]).Some?
    ensures forall other | other in procs && other != pid :: Holds(procs[other]) != Holds(procs[pid])
  {
    assert locks[Holds(procs[pid]).value] == pid;
  }

  /** A login commits while no change of the same user is under way: both would hold the row. */
  lemma {:induction false} ChangesKeptByLogin(c: Lifetimes, s: State, step: Step)
    requires Enabled(s, step) && (step.CommitLogin? || step.CommitLoginUnseen?)
    requires ChangesOk(s.procs, s.log, s.sessions) && LocksOk(s.locks, s.procs)
    ensures var t := Next(c, s, step); ChangesOk(t.procs, t.log, t.sessions)
  {
    var t, p := Next(c, s, step), s.procs[step.pid];
    ChangesSub(s.procs, s.log, s.sessions, t.procs, t.sessions);
    var e := LoggedIn(p.user, p.key, p.hash, p.upgrade);
    OneHolder(s.locks, s.procs, step.pid);
    forall pid | pid in t.procs ensures Ends(t.procs[pid], e, t.sessions) {
      assert pid != step.pid ==> Holds(t.procs[pid]) != Some(p.user);
    }
    ChangesGrow(t.procs, s.log, t.sessions, e);
  }

  lemma {:induction false} ChangesGrow(procs: Procs, log: Log, sessions: map<Key, Session>, e: Event)
    requires ChangesOk(procs, log, sessions) && forall pid | pid in procs :: Ends(procs[pid], e, sessions)
    ensures ChangesOk(procs, log + [e], sessions)
  {
    forall pid, i | pid in procs && 0 <= i < |log + [e]| ensures Ends(procs[pid], (log + [e])[i], sessions) {
      if i < |log| { assert Ends(procs[pid], log[i], sessions); }
    }
  }

  lemma {:induction false} ChangesKeptByChange(c: Lifetimes, s: State, step: Step)
    requires Enabled(s, step) && step.CommitChange? && ChangesOk(s.procs, s.log, s.sessions)
    ensures var t := Next(c, s, step); ChangesOk(t.procs, t.log, t.sessions)
  {
    var t, p := Next(c, s, step), s.procs[step.pid];
    ChangesSub(s.procs, s.log, s.sessions, t.procs, t.sessions);
    ChangesGrow(t.procs, s.log, t.sessions,
      Ended(p.user, p.why, if p.why.Password? then s.rows[p.user].hash else None));
  }

  /** The index lists every session of the user that a login recorded. */
  lemma {:induction false} ChangesKeptByList(c: Lifetimes, s: State, step: Step)
    requires Enabled(s, step) && step.List? && ChangesOk(s.procs, s.log, s.sessions)
    requires IndexOk(c, s.clock, s.sessions, s.index) && SessionOwners(s.sessions, s.births)
      && LogOwners(s.log, s.births)
    ensures var t := Next(c, s, step); ChangesOk(t.procs, t.log, t.sessions)
  {
    var t := Next(c, s, step);
    forall pid, i | pid in t.procs && 0 <= i < |s.log| ensures Ends(t.procs[pid], s.log[i], s.sessions) {
      if pid != step.pid { assert Ends(s.procs[pid], s.log[i], s.sessions); }
      else if s.log[i].LoggedIn? { assert Born(s.births, s.log[i].key, s.log[i].user); }
    }
  }

  lemma {:induction false} ChangesKeptByDelete(c: Lifetimes, s: State, step: Step)
    requires Enabled(s, step) && step.DeleteListed? && ChangesOk(s.procs, s.log, s.sessions)
    ensures var t := Next(c, s, step); ChangesOk(t.procs, t.log, t.sessions)
  {
    var t := Next(c, s, step);
    forall pid, i | pid in t.procs && 0 <= i < |s.log| ensures Ends(t.procs[pid], s.log[i], t.sessions) {
      assert Ends(s.procs[pid], s.log[i], s.sessions);
    }
  }

  lemma {:induction false} ChangesKept(c: Lifetimes, s: State, step: Step)
    requires Enabled(s, step)
    requires ChangesOk(s.procs, s.log, s.sessions) && LocksOk(s.locks, s.procs)
      && IndexOk(c, s.clock, s.sessions, s.index) && SessionOwners(s.sessions, s.births) && LogOwners(s.log, s.births)
      && ProcOwners(s.procs, s.births) && KeysUnlogged(s.procs, s.log)
    ensures var t := Next(c, s, step); ChangesOk(t.procs, t.log, t.sessions)
  {
    if Enters(step) { ChangesKeptEnter(c, s, step); }
    else if step.CommitLogin? || step.CommitLoginUnseen? { ChangesKeptByLogin(c, s, step); }
    else if step.CommitChange? { ChangesKeptByChange(c, s, step); }
    else if step.List? { ChangesKeptByList(c, s, step); }
    else if step.DeleteListed? { ChangesKeptByDelete(c, s, step); }
    else { ChangesKeptPlain(c, s, step); }
  }

  lemma {:induction false} RowHashesKeptEnter(c: Lifetimes, s: State, step: Step)
    requires Enabled(s, step)
    requires RowHashes(s.rows, s.log, s.hashes) && PendingNew(s.procs, s.rows, s.log) && LoginRows(s.procs, s.rows)
      && PendingOnce(s.procs, s.hashes)
    requires Enters(step)
    ensures var t := Next(c, s, step); RowHashes(t.rows, t.log, t.hashes)
  {
  }

  lemma {:induction false} RowHashesKeptSettle(c: Lifetimes, s: State, step: Step)
    requires Enabled(s, step)
    requires RowHashes(s.rows, s.log, s.hashes) && PendingNew(s.procs, s.rows, s.log) && LoginRows(s.procs, s.rows)
      && PendingOnce(s.procs, s.hashes)
    requires Settles(step)
    ensures var t := Next(c, s, step); RowHashes(t.rows, t.log, t.hashes)
  {
  }

  lemma {:induction false} RowHashesKeptRest(c: Lifetimes, s: State, step: Step)
    requires Enabled(s, step)
    requires RowHashes(s.rows, s.log, s.hashes) && PendingNew(s.procs, s.rows, s.log) && LoginRows(s.procs, s.rows)
      && PendingOnce(s.procs, s.hashes)
    requires !Enters(step) && !Settles(step)
    ensures var t := Next(c, s, step); RowHashes(t.rows, t.log, t.hashes)
  {
  }

  lemma {:induction false} RowHashesKept(c: Lifetimes, s: State, step: Step)
    requires Enabled(s, step)
    requires RowHashes(s.rows, s.log, s.hashes) && PendingNew(s.procs, s.rows, s.log) && LoginRows(s.procs, s.rows)
      && PendingOnce(s.procs, s.hashes)
    ensures var t := Next(c, s, step); RowHashes(t.rows, t.log, t.hashes)
  {
    if Enters(step) { RowHashesKeptEnter(c, s, step); }
    else if Settles(step) { RowHashesKeptSettle(c, s, step); }
    else { RowHashesKeptRest(c, s, step); }
  }

  lemma {:induction false} LoginRowsKeptRecord(c: Lifetimes, s: State, step: Step)
    requires Enabled(s, step)
    requires LoginRows(s.procs, s.rows) && LocksOk(s.locks, s.procs)
    requires step.Record?
    ensures var t := Next(c, s, step); LoginRows(t.procs, t.rows)
  {
  }

  lemma {:induction false} LoginRowsKeptEnter(c: Lifetimes, s: State, step: Step)
    requires Enabled(s, step)
    requires LoginRows(s.procs, s.rows) && LocksOk(s.locks, s.procs)
    requires Enters(step) && !step.Record?
    ensures var t := Next(c, s, step); LoginRows(t.procs, t.rows)
  {
  }

  lemma {:induction false} LoginRowsKeptSettle(c: Lifetimes, s: State, step: Step)
    requires Enabled(s, step)
    requires LoginRows(s.procs, s.rows) && LocksOk(s.locks, s.procs)
    requires Settles(step)
    ensures var t := Next(c, s, step); LoginRows(t.procs, t.rows)
  {
  }

  lemma {:induction false} LoginRowsKeptRest(c: Lifetimes, s: State, step: Step)
    requires Enabled(s, step)
    requires LoginRows(s.procs, s.rows) && LocksOk(s.locks, s.procs)
    requires !Enters(step) && !Settles(step)
    ensures var t := Next(c, s, step); LoginRows(t.procs, t.rows)
  {
  }

  lemma {:induction false} LoginRowsKept(c: Lifetimes, s: State, step: Step)
    requires Enabled(s, step)
    requires LoginRows(s.procs, s.rows) && LocksOk(s.locks, s.procs)
    ensures var t := Next(c, s, step); LoginRows(t.procs, t.rows)
  {
    if step.Record? { LoginRowsKeptRecord(c, s, step); }
    else if Enters(step) { LoginRowsKeptEnter(c, s, step); }
    else if Settles(step) { LoginRowsKeptSettle(c, s, step); }
    else { LoginRowsKeptRest(c, s, step); }
  }

  lemma {:induction false} PendingNewKeptRecord(c: Lifetimes, s: State, step: Step)
    requires Enabled(s, step)
    requires PendingNew(s.procs, s.rows, s.log) && RowHashes(s.rows, s.log, s.hashes)
      && PendingOnce(s.procs, s.hashes) && LocksOk(s.locks, s.procs)
    requires step.Record?
    ensures var t := Next(c, s, step); PendingNew(t.procs, t.rows, t.log)
  {
  }

  lemma {:induction false} PendingNewKeptEnter(c: Lifetimes, s: State, step: Step)
    requires Enabled(s, step)
    requires PendingNew(s.procs, s.rows, s.log) && RowHashes(s.rows, s.log, s.hashes)
      && PendingOnce(s.procs, s.hashes) && LocksOk(s.locks, s.procs)
    requires Enters(step) && !step.Record?
    ensures var t := Next(c, s, step); PendingNew(t.procs, t.rows, t.log)
  {
  }

  lemma {:induction false} PendingNewKeptSettle(c: Lifetimes, s: State, step: Step)
    requires Enabled(s, step)
    requires PendingNew(s.procs, s.rows, s.log) && RowHashes(s.rows, s.log, s.hashes)
      && PendingOnce(s.procs, s.hashes) && LocksOk(s.locks, s.procs)
    requires Settles(step) && LoginRows(s.procs, s.rows)
    ensures var t := Next(c, s, step); PendingNew(t.procs, t.rows, t.log)
  {
  }

  lemma {:induction false} PendingNewKeptChange(c: Lifetimes, s: State, step: Step)
    requires Enabled(s, step)
    requires PendingNew(s.procs, s.rows, s.log) && RowHashes(s.rows, s.log, s.hashes)
      && PendingOnce(s.procs, s.hashes) && LocksOk(s.locks, s.procs)
    requires Changes(step) && !step.CommitChange?
    ensures var t := Next(c, s, step); PendingNew(t.procs, t.rows, t.log)
  {
  }

  lemma {:induction false} PendingNewKeptCommit(c: Lifetimes, s: State, step: Step)
    requires Enabled(s, step)
    requires PendingNew(s.procs, s.rows, s.log) && RowHashes(s.rows, s.log, s.hashes)
      && PendingOnce(s.procs, s.hashes) && LocksOk(s.locks, s.procs)
    requires step.CommitChange?
    ensures var t := Next(c, s, step); PendingNew(t.procs, t.rows, t.log)
  {
  }

  lemma {:induction false} PendingNewKeptRest(c: Lifetimes, s: State, step: Step)
    requires Enabled(s, step)
    requires PendingNew(s.procs, s.rows, s.log) && RowHashes(s.rows, s.log, s.hashes)
      && PendingOnce(s.procs, s.hashes) && LocksOk(s.locks, s.procs)
    requires !Enters(step) && !Settles(step) && !Changes(step)
    ensures var t := Next(c, s, step); PendingNew(t.procs, t.rows, t.log)
  {
  }

  lemma {:induction false} PendingNewKept(c: Lifetimes, s: State, step: Step)
    requires Enabled(s, step)
    requires PendingNew(s.procs, s.rows, s.log) && RowHashes(s.rows, s.log, s.hashes)
      && PendingOnce(s.procs, s.hashes) && LocksOk(s.locks, s.procs)
    requires LoginRows(s.procs, s.rows)
    ensures var t := Next(c, s, step); PendingNew(t.procs, t.rows, t.log)
  {
    if step.Record? { PendingNewKeptRecord(c, s, step); } else if Enters(step) { PendingNewKeptEnter(c, s, step); }
    else if Settles(step) { PendingNewKeptSettle(c, s, step); }
    else if step.CommitChange? { PendingNewKeptCommit(c, s, step); }
    else if Changes(step) { PendingNewKeptChange(c, s, step); }
    else { PendingNewKeptRest(c, s, step); }
  }

  lemma {:induction false} SessionOwnersKeptEnter(c: Lifetimes, s: State, step: Step)
    requires Enabled(s, step)
    requires SessionOwners(s.sessions, s.births) && ProcOwners(s.procs, s.births)
    requires Enters(step)
    ensures var t := Next(c, s, step); SessionOwners(t.sessions, t.births)
  {
  }

  lemma {:induction false} SessionOwnersKeptSettle(c: Lifetimes, s: State, step: Step)
    requires Enabled(s, step)
    requires SessionOwners(s.sessions, s.births) && ProcOwners(s.procs, s.births)
    requires Settles(step)
    ensures var t := Next(c, s, step); SessionOwners(t.sessions, t.births)
  {
  }

  lemma {:induction false} SessionOwnersKeptRest(c: Lifetimes, s: State, step: Step)
    requires Enabled(s, step)
    requires SessionOwners(s.sessions, s.births) && ProcOwners(s.procs, s.births)
    requires !Enters(step) && !Settles(step)
    ensures var t := Next(c, s, step); SessionOwners(t.sessions, t.births)
  {
  }

  lemma {:induction false} SessionOwnersKept(c: Lifetimes, s: State, step: Step)
    requires Enabled(s, step)
    requires SessionOwners(s.sessions, s.births) && ProcOwners(s.procs, s.births)
    ensures var t := Next(c, s, step); SessionOwners(t.sessions, t.births)
  {
    if Enters(step) { SessionOwnersKeptEnter(c, s, step); }
    else if Settles(step) { SessionOwnersKeptSettle(c, s, step); }
    else { SessionOwnersKeptRest(c, s, step); }
  }

  lemma {:induction false} LogOwnersKeptEnter(c: Lifetimes, s: State, step: Step)
    requires Enabled(s, step) && Enters(step) && LogOwners(s.log, s.births) && ProcOwners(s.procs, s.births)
    ensures var t := Next(c, s, step); LogOwners(t.log, t.births)
  {
  }

  lemma {:induction false} LogOwnersKeptRest(c: Lifetimes, s: State, step: Step)
    requires Enabled(s, step) && !Enters(step) && LogOwners(s.log, s.births) && ProcOwners(s.procs, s.births)
    ensures var t := Next(c, s, step); LogOwners(t.log, t.births)
  {
  }

  lemma {:induction false} LogOwnersKept(c: Lifetimes, s: State, step: Step)
    requires Enabled(s, step) && LogOwners(s.log, s.births) && ProcOwners(s.procs, s.births)
    ensures var t := Next(c, s, step); LogOwners(t.log, t.births)
  {
    if Enters(step) { LogOwnersKeptEnter(c, s, step); } else { LogOwnersKeptRest(c, s, step); }
  }

  lemma {:induction false} IndexOwnersKeptEnter(c: Lifetimes, s: State, step: Step)
    requires Enabled(s, step) && Enters(step) && IndexOwners(s.index, s.births) && ProcOwners(s.procs, s.births)
    ensures var t := Next(c, s, step); IndexOwners(t.index, t.births)
  {
  }

  lemma {:induction false} IndexOwnersKeptRest(c: Lifetimes, s: State, step: Step)
    requires Enabled(s, step) && !Enters(step) && IndexOwners(s.index, s.births) && ProcOwners(s.procs, s.births)
    ensures var t := Next(c, s, step); IndexOwners(t.index, t.births)
  {
  }

  lemma {:induction false} IndexOwnersKept(c: Lifetimes, s: State, step: Step)
    requires Enabled(s, step) && IndexOwners(s.index, s.births) && ProcOwners(s.procs, s.births)
    ensures var t := Next(c, s, step); IndexOwners(t.index, t.births)
  {
    if Enters(step) { IndexOwnersKeptEnter(c, s, step); } else { IndexOwnersKeptRest(c, s, step); }
  }

  lemma {:induction false} BirthTimesKept(c: Lifetimes, s: State, step: Step)
    requires Enabled(s, step)
    requires BirthTimes(s.births, s.clock)
    ensures var t := Next(c, s, step); BirthTimes(t.births, t.clock)
  {
  }

  lemma {:induction false} EndingsKeptEnter(c: Lifetimes, s: State, step: Step)
    requires Enabled(s, step)
    requires EndingsOk(s.log, s.sessions) && KeysUnlogged(s.procs, s.log) && LogOwners(s.log, s.births)
      && ChangesOk(s.procs, s.log, s.sessions)
    requires Enters(step)
    ensures var t := Next(c, s, step); EndingsOk(t.log, t.sessions)
  {
  }

  lemma {:induction false} EndingsKeptSettle(c: Lifetimes, s: State, step: Step)
    requires Enabled(s, step)
    requires EndingsOk(s.log, s.sessions) && KeysUnlogged(s.procs, s.log) && LogOwners(s.log, s.births)
      && ChangesOk(s.procs, s.log, s.sessions)
    requires Settles(step)
    ensures var t := Next(c, s, step); EndingsOk(t.log, t.sessions)
  {
  }

  lemma {:induction false} EndingsKeptRest(c: Lifetimes, s: State, step: Step)
    requires Enabled(s, step)
    requires EndingsOk(s.log, s.sessions) && KeysUnlogged(s.procs, s.log) && LogOwners(s.log, s.births)
      && ChangesOk(s.procs, s.log, s.sessions)
    requires !Enters(step) && !Settles(step)
    ensures var t := Next(c, s, step); EndingsOk(t.log, t.sessions)
  {
  }

  lemma {:induction false} EndingsKept(c: Lifetimes, s: State, step: Step)
    requires Enabled(s, step)
    requires EndingsOk(s.log, s.sessions) && KeysUnlogged(s.procs, s.log) && LogOwners(s.log, s.births)
      && ChangesOk(s.procs, s.log, s.sessions)
    ensures var t := Next(c, s, step); EndingsOk(t.log, t.sessions)
  {
    if Enters(step) { EndingsKeptEnter(c, s, step); }
    else if Settles(step) { EndingsKeptSettle(c, s, step); }
    else { EndingsKeptRest(c, s, step); }
  }

  lemma {:induction false} LoginHashesKept(c: Lifetimes, s: State, step: Step)
    requires Enabled(s, step)
    requires LoginHashes(s.log) && RowHashes(s.rows, s.log, s.hashes) && LoginRows(s.procs, s.rows)
    ensures var t := Next(c, s, step); LoginHashes(t.log)
  {
  }

  // ------------------------------------------------------------ all facts together

  lemma {:induction false} OwnersKept(c: Lifetimes, s: State, step: Step)
    requires Enabled(s, step) && OwnersInv(s)
    ensures OwnersInv(Next(c, s, step))
  {
    SessionOwnersKept(c, s, step);
    LogOwnersKept(c, s, step);
    IndexOwnersKept(c, s, step);
    ProcOwnersKept(c, s, step);
    BirthTimesKept(c, s, step);
  }

  lemma {:induction false} KeysKept(c: Lifetimes, s: State, step: Step)
    requires Enabled(s, step) && KeysInv(s) && OwnersInv(s)
    ensures KeysInv(Next(c, s, step))
  {
    DistinctKept(c, s, step);
    UnloggedKept(c, s, step);
    LostKept(c, s, step);
    ReturnsKept(c, s, step);
  }

  lemma {:induction false} HashesKept(c: Lifetimes, s: State, step: Step)
    requires Enabled(s, step) && HashesInv(s) && LocksOk(s.locks, s.procs)
    ensures HashesInv(Next(c, s, step))
  {
    RowHashesKept(c, s, step);
    LoginRowsKept(c, s, step);
    PendingNewKept(c, s, step);
    PendingOnceKept(c, s, step);
    LoginHashesKept(c, s, step);
  }

  lemma {:induction false} InvKept(c: Lifetimes, s: State, step: Step)
    requires Enabled(s, step) && Inv(c, s)
    ensures Inv(c, Next(c, s, step))
  {
    LocksKept(c, s, step);
    IndexKept(c, s, step);
    KeysKept(c, s, step);
    OwnersKept(c, s, step);
    HashesKept(c, s, step);
    ChangesKept(c, s, step);
    EndingsKept(c, s, step);
  }

  /** Every step keeps the log and may add one record. */
  lemma {:induction false} LogKept(c: Lifetimes, s: State, step: Step)
    requires Enabled(s, step)
    ensures s.log <= Next(c, s, step).log
  {
  }
}
