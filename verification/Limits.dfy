/**
  The failed-login counter of a client address: concurrent attempts, each counted before its
  password is checked, as interleaved steps.  A Redis command that fails at the client may have
  been carried out or not, and one that the client retries may have been carried out more than
  once.  An attempt is also refused when the counter of its account is past its own limit.  No
  window ends.
*/
module Limits {
  type Pid = nat

  const ADDRESS_FAILURES: nat := 50

  /** An attempt that holds a place in the count. */
  datatype Attempt =
    | Over      // counted past a limit; its count is to be taken back
    | Checking  // admitted
    | Settling  // succeeded or not checked to the end; its count is to be taken back

  /**
    What was counted and is nobody's is leaked; what was taken back and was not counted any more
    is overtaken.
  */
  datatype State = State(count: int, attempts: map<Pid, Attempt>, failures: nat, leaked: nat, overtaken: nat)

  /** The commands of Begin and TakeBack say how often they are carried out. */
  datatype Step =
    | Begin(pid: Pid, accountOver: bool, times: nat)
    | BeginFails(times: nat)
    | Fail(pid: Pid)
    | Settle(pid: Pid)
    | TakeBack(pid: Pid, times: nat)

  predicate Enabled(s: State, step: Step) {
    match step
    case Begin(pid, _, times) => pid !in s.attempts && times >= 1
    case BeginFails(_) => true
    case Fail(pid) => pid in s.attempts && s.attempts[pid].Checking?
    case Settle(pid) => pid in s.attempts && s.attempts[pid].Checking?
    case TakeBack(pid, _) => pid in s.attempts && !s.attempts[pid].Checking?
  }

  /** The last answer of the command is within the limit, and so was the account's. */
  predicate Admits(s: State, accountOver: bool, times: nat) {
    s.count + times <= ADDRESS_FAILURES && !accountOver
  }

  function Next(s: State, step: Step): State
    requires Enabled(s, step)
  {
    match step
    case Begin(pid, accountOver, times) =>
      s.(count := s.count + times, leaked := s.leaked + (times - 1),
         attempts := s.attempts[pid := if Admits(s, accountOver, times) then Checking else Over])
    case BeginFails(times) => s.(count := s.count + times, leaked := s.leaked + times)
    case Fail(pid) => s.(attempts := s.attempts - {pid}, failures := s.failures + 1)
    case Settle(pid) => s.(attempts := s.attempts[pid := Settling])
    case TakeBack(pid, times) =>
      var left := s.(count := s.count - times, attempts := s.attempts - {pid});
      if times == 0 then left.(leaked := s.leaked + 1) else left.(overtaken := s.overtaken + (times - 1))
  }

  /** The attempts that were admitted and have not returned. */
  function InFlight(attempts: map<Pid, Attempt>): set<Pid> {
    set pid | pid in attempts && !attempts[pid].Over?
  }

  /** Every count has its attempt, its failure or its error. */
  ghost predicate Inv(s: State) {
    && s.count == |s.attempts| + s.failures + s.leaked - s.overtaken
    && |InFlight(s.attempts)| + s.failures <= ADDRESS_FAILURES + s.overtaken
  }

  lemma {:induction false} InFlightFew(attempts: map<Pid, Attempt>)
    ensures |InFlight(attempts)| <= |attempts|
  {
    Subset(InFlight(attempts), attempts.Keys);
  }

  lemma {:induction false} Subset(a: set<Pid>, b: set<Pid>)
    requires a <= b
    ensures |a| <= |b|
  {
    assert b == a + (b - a);
  }

  lemma {:induction false} Removed(attempts: map<Pid, Attempt>, pid: Pid)
    requires pid in attempts
    ensures |attempts - {pid}| == |attempts| - 1
    ensures InFlight(attempts - {pid}) == InFlight(attempts) - {pid}
  {
    assert (attempts - {pid}).Keys == attempts.Keys - {pid};
    assert |(attempts - {pid}).Keys| == |attempts - {pid}|;
  }

  lemma {:induction false} Added(attempts: map<Pid, Attempt>, pid: Pid, a: Attempt)
    ensures pid !in attempts ==> |attempts[pid := a]| == |attempts| + 1
    ensures pid in attempts ==> |attempts[pid := a]| == |attempts|
    ensures InFlight(attempts[pid := a]) == if a.Over? then InFlight(attempts) - {pid} else InFlight(attempts) + {pid}
  {
    assert attempts[pid := a].Keys == attempts.Keys + {pid};
    assert |attempts[pid := a].Keys| == |attempts[pid := a]|;
  }

  lemma {:induction false} BeginKept(s: State, pid: Pid, accountOver: bool, times: nat)
    requires Inv(s) && pid !in s.attempts && times >= 1
    ensures Inv(Next(s, Begin(pid, accountOver, times)))
  {
    var a := if Admits(s, accountOver, times) then Checking else Over;
    Added(s.attempts, pid, a);
    InFlightFew(s.attempts[pid := a]);
    if a.Over? { assert InFlight(s.attempts) - {pid} == InFlight(s.attempts); }
  }

  lemma {:induction false} CheckedKept(s: State, pid: Pid)
    requires Inv(s) && pid in s.attempts && s.attempts[pid].Checking?
    ensures Inv(Next(s, Fail(pid))) && Inv(Next(s, Settle(pid)))
  {
    Removed(s.attempts, pid);
    Added(s.attempts, pid, Settling);
    assert pid in InFlight(s.attempts);
    assert InFlight(s.attempts) + {pid} == InFlight(s.attempts);
  }

  lemma {:induction false} InvKept(s: State, step: Step)
    requires Enabled(s, step) && Inv(s)
    ensures Inv(Next(s, step))
  {
    match step
    case Begin(pid, accountOver, times) => BeginKept(s, pid, accountOver, times);
    case BeginFails(_) =>
    case Fail(pid) => CheckedKept(s, pid);
    case Settle(pid) => CheckedKept(s, pid);
    case TakeBack(pid, _) => TakenBack(s, pid);
  }

  lemma {:induction false} TakenBack(s: State, pid: Pid)
    requires pid in s.attempts
    ensures |s.attempts - {pid}| == |s.attempts| - 1 && |InFlight(s.attempts - {pid})| <= |InFlight(s.attempts)|
  {
    Removed(s.attempts, pid);
    Subset(InFlight(s.attempts - {pid}), InFlight(s.attempts));
  }

  ghost predicate Moves(s: State, t: State) {
    exists step :: Enabled(s, step) && t == Next(s, step)
  }

  ghost predicate Run(run: seq<State>) {
    && run != [] && run[0] == State(0, map[], 0, 0, 0)
    && forall i | 0 <= i < |run| - 1 :: Moves(run[i], run[i + 1])
  }

  /**
    In every state of every run the count falls short of the attempts in flight and the failures
    by no more than was taken back twice, and no more than that many beyond the limit are
    admitted and unreturned: none, when no command is carried out more than once.  With nothing
    in flight, no error and no repetition it is exactly the failures.
  */
  lemma {:induction false} CountCovers(run: seq<State>, i: nat)
    requires Run(run) && i < |run|
    ensures Inv(run[i])
    ensures run[i].count + run[i].overtaken >= |InFlight(run[i].attempts)| + run[i].failures
    ensures |InFlight(run[i].attempts)| <= ADDRESS_FAILURES + run[i].overtaken
    ensures run[i].attempts == map[] && run[i].leaked == 0 && run[i].overtaken == 0 ==> run[i].count == run[i].failures
  {
    if i > 0 {
      CountCovers(run, i - 1);
      assert Moves(run[i - 1], run[i - 1 + 1]);
      var step :| Enabled(run[i - 1], step) && run[i] == Next(run[i - 1], step);
      InvKept(run[i - 1], step);
    }
    InFlightFew(run[i].attempts);
  }
}

/**
  The exits of a login and of a password change, and what each does to the count.
*/
module LoginFlow {
  datatype Count = Begun | Refused | BeginError | Succeeded | Unchecked

  datatype Exit = InvalidRequest | LimitError | RateLimited | Error | Failed | FailedUnaudited | Done

  datatype Begin = Admitted | TooMany | NoAnswer
  datatype Lookup = Found(hasHash: bool, active: bool) | Unknown | LookupError
  datatype Verify = Match | NoMatch | Malformed | VerifyError
  /** How the transaction of a login, or of a password change, ended. */
  datatype Recorded = Stored | ChangedMeanwhile | StoreError

  /** What the outside world answers. */
  datatype World = World(
    requestOk: bool, begin: Begin, idOk: bool, lookup: Lookup, decoyOk: bool, verify: Verify, recorded: Recorded,
      auditOk: bool)

  /** The count changes by one for a failure, which is kept, and not at all otherwise. */
  function Net(calls: seq<Count>): int {
    if calls == [] then 0
    else Net(calls[..|calls| - 1]) +
         match calls[|calls| - 1]
         case Begun => 1
         case Refused => 0
         case BeginError => 0
         case Succeeded => -1
         case Unchecked => -1
  }

  /** The password was checked, and did not match a user who may log in until the login was recorded. */
  predicate Fails(w: World) {
    && w.requestOk && w.begin.Admitted? && !w.lookup.LookupError? && !w.verify.VerifyError?
    && ((w.lookup.Unknown? || !w.lookup.hasHash) ==> w.decoyOk)
    && (w.lookup.Unknown? || !w.lookup.hasHash || !w.verify.Match? || !w.lookup.active || w.recorded.ChangedMeanwhile?)
  }

  function Failure(w: World): Exit {
    if w.auditOk then Failed else FailedUnaudited
  }

  /** A login that got past Begin is settled once: kept as a failure, or taken back by one call. */
  predicate SettledOnce(calls: seq<Count>, kept: bool) {
    || (calls == [] && !kept)
    || (calls == [Refused] && !kept) || (calls == [BeginError] && !kept)
    || (calls == [Begun] && kept)
    || ((calls == [Begun, Succeeded] || calls == [Begun, Unchecked]) && !kept)
  }

  method Login(w: World) returns (exit: Exit, calls: seq<Count>)
    ensures SettledOnce(calls, exit.Failed? || exit.FailedUnaudited?)
    ensures (exit.Failed? || exit.FailedUnaudited?) <==> Fails(w)
    ensures calls == [Begun, Succeeded] <==> exit.Done?
    ensures exit.Done? ==>
      w.verify.Match? && w.lookup.Found? && w.lookup.hasHash && w.lookup.active && w.recorded.Stored?
  {
    if !w.requestOk { return InvalidRequest, []; }
    match w.begin {
      case NoAnswer => return LimitError, [BeginError];
      case TooMany => return RateLimited, [Refused];
      case Admitted =>
    }
    if w.lookup.LookupError? { return Error, [Begun, Unchecked]; }
    if w.lookup.Unknown? || !w.lookup.hasHash {
      if !w.decoyOk { return Error, [Begun, Unchecked]; }
    }
    if w.verify.VerifyError? { return Error, [Begun, Unchecked]; }
    if w.lookup.Unknown? || !w.lookup.hasHash || w.verify.Malformed? || !w.verify.Match? || !w.lookup.active {
      return Failure(w), [Begun];
    }
    match w.recorded {
      case ChangedMeanwhile => return Failure(w), [Begun];
      case StoreError => return Error, [Begun, Unchecked];
      case Stored => return Done, [Begun, Succeeded];
    }
  }

  /** The current password did not match, or was no longer the current one when the new one was stored. */
  predicate WrongPassword(w: World) {
    && w.requestOk && w.begin.Admitted? && w.idOk && w.lookup.Found?
    && (!w.lookup.hasHash || (!w.verify.VerifyError? && (!w.verify.Match? || w.recorded.ChangedMeanwhile?)))
  }

  method ChangePassword(w: World) returns (exit: Exit, calls: seq<Count>)
    ensures SettledOnce(calls, exit.Failed? || exit.FailedUnaudited?)
    ensures (exit.Failed? || exit.FailedUnaudited?) <==> WrongPassword(w)
    ensures calls == [Begun, Succeeded] <==> exit.Done?
    ensures exit.Done? ==> w.lookup.Found? && w.lookup.hasHash && w.verify.Match? && w.recorded.Stored?
  {
    if !w.requestOk { return InvalidRequest, []; }
    match w.begin {
      case NoAnswer => return LimitError, [BeginError];
      case TooMany => return RateLimited, [Refused];
      case Admitted =>
    }
    if !w.idOk { return Error, [Begun, Unchecked]; }
    if !w.lookup.Found? { return Error, [Begun, Unchecked]; }
    var matched := false;
    if w.lookup.hasHash {
      if w.verify.VerifyError? { return Error, [Begun, Unchecked]; }
      matched := w.verify.Match?;
    }
    if !matched { return Failure(w), [Begun]; }
    match w.recorded {
      case ChangedMeanwhile => return Failure(w), [Begun];
      case StoreError => return Error, [Begun, Unchecked];
      case Stored => return Done, [Begun, Succeeded];
    }
  }

  /** A settled attempt leaves the count one higher exactly when it is kept as a failure. */
  lemma {:induction false} SettledNet(calls: seq<Count>, kept: bool)
    requires SettledOnce(calls, kept)
    ensures Net(calls) == if kept then 1 else 0
  {
    if |calls| == 2 {
      assert calls[..1] == [Begun];
      assert [Begun][..0] == [];
    } else if |calls| == 1 {
      assert calls[..0] == [];
    }
  }
}

/**
  The exits of a login as steps of the counter's machine, among those of other attempts.
*/
module LoginAttempts {
  import opened Basics
  import opened Limits
  import opened LoginFlow

  /** What an attempt does to the counter. */
  datatype Own = Starts | Fails | Settles | TakesBack

  /** What an attempt's calls do to the counter; a Begin that does not answer is a BeginFails of nobody's. */
  function OwnOf(calls: seq<Count>): seq<Own> {
    if calls == [Refused] then [Starts, TakesBack]
    else if calls == [Begun] then [Starts, Own.Fails]
    else if calls == [Begun, Succeeded] || calls == [Begun, Unchecked] then [Starts, Settles, TakesBack]
    else []
  }

  /** The step is of the kind, of the attempt. */
  function KindOf(step: Step, pid: Pid): Option<Own> {
    match step
    case Begin(p, _, _) => if p == pid then Some(Starts) else None
    case BeginFails(_) => None
    case Fail(p) => if p == pid then Some(Own.Fails) else None
    case Settle(p) => if p == pid then Some(Settles) else None
    case TakeBack(p, _) => if p == pid then Some(TakesBack) else None
  }

  function OwnSteps(steps: seq<Step>, pid: Pid): seq<Own> {
    if steps == [] then []
    else
      var last := KindOf(steps[|steps| - 1], pid);
      OwnSteps(steps[..|steps| - 1], pid) + (if last.Some? then [last.value] else [])
  }

  function AttemptAt(s: State, pid: Pid): Option<Attempt> {
    if pid in s.attempts then Some(s.attempts[pid]) else None
  }

  /** Where an attempt is after its first n steps. */
  function StageAfter(calls: seq<Count>, n: nat): Option<Attempt> {
    if n == 1 then Some(if calls == [Refused] then Over else Checking)
    else if n == 2 && |calls| == 2 then Some(Settling)
    else None
  }

  /** The states of a stretch of the machine, and the steps between them. */
  ghost predicate Plays(run: seq<State>, steps: seq<Step>) {
    |run| == |steps| + 1 && forall i | 0 <= i < |steps| ::
      Enabled(run[i], steps[i]) && run[i + 1] == Next(run[i], steps[i])
  }

  /** The counters admit the attempt exactly when its calls say so. */
  ghost predicate AnswersAs(run: seq<State>, steps: seq<Step>, pid: Pid, calls: seq<Count>)
    requires Plays(run, steps)
  {
    forall i | 0 <= i < |steps| && KindOf(steps[i], pid) == Some(Starts) ::
      Admits(run[i], steps[i].accountOver, steps[i].times) <==> calls != [Refused]
  }

  /** The next step of an attempt can be taken, however often its command is carried out, and brings it on. */
  lemma {:induction false} OwnStep(s: State, step: Step, pid: Pid, calls: seq<Count>, kept: bool, n: nat)
    requires SettledOnce(calls, kept) && n < |OwnOf(calls)| && AttemptAt(s, pid) == StageAfter(calls, n)
    requires KindOf(step, pid) == Some(OwnOf(calls)[n]) && (step.Begin? ==> step.times >= 1)
    ensures Enabled(s, step)
    ensures (step.Begin? ==> (Admits(s, step.accountOver, step.times) <==> calls != [Refused])) ==>
      AttemptAt(Next(s, step), pid) == StageAfter(calls, n + 1)
  {
  }

  lemma {:induction false} OthersStep(s: State, step: Step, pid: Pid)
    requires Enabled(s, step) && KindOf(step, pid).None?
    ensures AttemptAt(Next(s, step), pid) == AttemptAt(s, pid)
  {
  }

  /** The next step of the attempt, with its commands carried out as often as given. */
  function NextOwn(pid: Pid, own: Own, accountOver: bool, times: nat): Step {
    match own
    case Starts => Step.Begin(pid, accountOver, times + 1)
    case Fails => Fail(pid)
    case Settles => Settle(pid)
    case TakesBack => TakeBack(pid, times)
  }

  /**
    However the steps of other attempts come in between, an attempt that has taken the first of
    its steps is where they lead, and the next of them can be taken: a login or a password
    change is a path of the machine, through to the end of its steps.
  */
  lemma {:induction false} FlowIsAPath(run: seq<State>, steps: seq<Step>, pid: Pid, calls: seq<Count>, kept: bool)
    requires Plays(run, steps) && pid !in run[0].attempts && SettledOnce(calls, kept)
    requires OwnSteps(steps, pid) <= OwnOf(calls) && AnswersAs(run, steps, pid, calls)
    ensures AttemptAt(run[|steps|], pid) == StageAfter(calls, |OwnSteps(steps, pid)|)
    ensures var own := |OwnSteps(steps, pid)|; own < |OwnOf(calls)| ==>
      forall accountOver, times :: Enabled(run[|steps|], NextOwn(pid, OwnOf(calls)[own], accountOver, times))
  {
    var n := |steps| - 1;
    if steps != [] {
      var before := steps[..n];
      assert Plays(run[..n + 1], before) && AnswersAs(run[..n + 1], before, pid, calls);
      assert OwnSteps(before, pid) <= OwnSteps(steps, pid);
      FlowIsAPath(run[..n + 1], before, pid, calls, kept);
      var own := |OwnSteps(before, pid)|;
      if KindOf(steps[n], pid).Some? {
        assert KindOf(steps[n], pid) == Some(OwnSteps(steps, pid)[own])
          && OwnSteps(steps, pid)[own] == OwnOf(calls)[own];
        OwnStep(run[n], steps[n], pid, calls, kept, own);
      } else {
        OthersStep(run[n], steps[n], pid);
      }
    }
    var own := |OwnSteps(steps, pid)|;
    if own < |OwnOf(calls)| {
      forall accountOver, times ensures Enabled(run[|steps|], NextOwn(pid, OwnOf(calls)[own], accountOver, times)) {
        OwnStep(run[|steps|], NextOwn(pid, OwnOf(calls)[own], accountOver, times), pid, calls, kept, own);
      }
    }
  }

  /** An attempt's steps, with every command carried out once. */
  function Path(pid: Pid, own: seq<Own>, accountOver: bool): seq<Step> {
    seq(|own|, i requires 0 <= i < |own| => NextOwn(pid, own[i], accountOver, if own[i].Starts? then 0 else 1))
  }

  /** All of an attempt's steps together change the count as its calls do. */
  lemma {:induction false} FlowChangesCount(s: State, pid: Pid, calls: seq<Count>, kept: bool, accountOver: bool)
    requires SettledOnce(calls, kept) && calls != [BeginError] && pid !in s.attempts
    requires calls != [] ==> (Admits(s, accountOver, 1) <==> calls != [Refused])
    ensures var t := PlayAll(s, Path(pid, OwnOf(calls), accountOver));
      t.Some? && t.value.count == s.count + Net(calls) && t.value.attempts == s.attempts
      && t.value.failures == s.failures + (if kept then 1 else 0)
      && t.value.leaked == s.leaked && t.value.overtaken == s.overtaken
  {
    SettledNet(calls, kept);
    var steps := Path(pid, OwnOf(calls), accountOver);
    if steps != [] {
      var s1 := Next(s, steps[0]);
      var s2 := Next(s1, steps[1]);
      PlayFirst(s, steps);
      PlayFirst(s1, steps[1..]);
      if |steps| == 3 {
        PlayFirst(s2, steps[1..][1..]);
        assert steps[1..][1..][1..] == [];
      } else {
        assert steps[1..][1..] == [];
      }
    }
  }

  /** The state after the steps, while each can be taken. */
  function PlayAll(s: State, steps: seq<Step>): Option<State>
    decreases |steps|
  {
    if steps == [] then Some(s)
    else if Enabled(s, steps[0]) then PlayAll(Next(s, steps[0]), steps[1..])
    else None
  }

  lemma {:induction false} PlayFirst(s: State, steps: seq<Step>)
    requires steps != [] && Enabled(s, steps[0])
    ensures PlayAll(s, steps) == PlayAll(Next(s, steps[0]), steps[1..])
  {
  }
}
