/**
  What every run of the session protocol keeps, and its main consequence: no session outlives
  the password change or the disabling that was to end it.
*/
module SessionLaws {
  import opened Basics
  import opened Sessions
  import opened SessionSteps

  // ------------------------------------------------------------ every run

  /** The invariant holds in every state of every run. */
  lemma {:induction false} RunInv(c: Lifetimes, run: seq<State>, i: nat)
    requires Run(c, run) && i < |run|
    ensures Inv(c, run[i])
  {
    if i > 0 {
      RunInv(c, run, i - 1);
      assert Moves(c, run[i - 1], run[i - 1 + 1]);
      var step :| Enabled(run[i - 1], step) && run[i] == Next(c, run[i - 1], step);
      InvKept(c, run[i - 1], step);
    }
  }

  lemma {:induction false} RunLog(c: Lifetimes, run: seq<State>, i: nat, j: nat)
    requires Run(c, run) && i <= j < |run|
    ensures run[i].log <= run[j].log
    decreases j
  {
    if i < j {
      RunLog(c, run, i, j - 1);
      assert Moves(c, run[j - 1], run[j - 1 + 1]);
      var step :| Enabled(run[j - 1], step) && run[j] == Next(c, run[j - 1], step);
      LogKept(c, run[j - 1], step);
    }
  }

  /**
    Once a password change or a disabling of a user has committed, at every later step of every
    run a returned token that still opens a session of that user comes from a login that was
    recorded after the change, and that checked no hash of the user's replaced up to then,
    by the change, an earlier one or an upgrade.
  */
  lemma {:induction false} EndedSessionsStayEnded(c: Lifetimes, run: seq<State>, i: nat, j: nat, a: nat, k: Key)
    requires Run(c, run) && i <= j < |run|
    requires a < |run[i].log| && run[i].log[a].Ended?
    requires k in run[j].returned && k in run[j].sessions && run[j].sessions[k].user == run[i].log[a].user
    ensures exists b | a < b < |run[j].log| ::
      && LogsIn(run[j].log[b], run[i].log[a].user, k)
      && forall d | 0 <= d <= a && run[j].log[d].user == run[i].log[a].user ::
        Replaced(run[j].log[d]) != Some(run[j].log[b].hash)
  {
    var s := run[j];
    RunLog(c, run, i, j);
    RunInv(c, run, j);
    assert s.log[a] == run[i].log[a];
    assert Logged(s.log, k);
    var b :| 0 <= b < |s.log| && s.log[b].LoggedIn? && s.log[b].key == k;
    assert Born(s.births, s.log[b].key, s.log[b].user);
    assert LogsIn(s.log[b], run[i].log[a].user, k);
  }

  /**
    A login that checked a hash which was replaced, by a password change or by an upgrade, is
    recorded before that or never; and once a password change or a disabling has followed, its
    session is gone.
  */
  lemma {:induction false} ReplacedHashLogsInNoMore(c: Lifetimes, run: seq<State>, j: nat, a: nat, b: nat)
    requires Run(c, run) && j < |run| && a < |run[j].log| && b < |run[j].log|
    requires run[j].log[b].LoggedIn? && run[j].log[a].user == run[j].log[b].user
    requires Replaced(run[j].log[a]) == Some(run[j].log[b].hash)
    ensures b <= a && (a == b ==> run[j].log[a].LoggedIn?)
    ensures forall d | a <= d < |run[j].log| && run[j].log[d].Ended? && run[j].log[d].user == run[j].log[b].user ::
      run[j].log[b].key !in run[j].sessions
  {
    RunInv(c, run, j);
  }
}
