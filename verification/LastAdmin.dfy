/**
  Concurrent changes of users and their roles, as interleaved transactions: each statement is a
  step, sees what has committed, and holds its row locks to the end of its transaction.
*/
module LastAdmin {
  import opened Basics

  type Uid = nat
  type Pid = nat
  type Role = nat

  const ADMIN: Role := 0

  datatype User = User(active: bool, roles: set<Role>)

  datatype Op =
    | Disable(user: Uid)
    | Enable(user: Uid)
    | Grant(user: Uid, role: Role)
    | Revoke(user: Uid, role: Role)
    | Create(user: Uid, roles: set<Role>)

  /** How far a transaction is. */
  datatype Stage =
    | Began
    | AdminLocked
    | Locked(before: User)               // the user's row is locked and read
    | Checked(before: User)              // an admin and a role would be left
    | Written(before: User, after: User) // the change is made, not committed
    | Inserted(after: User)              // a new user, not committed

  datatype Tx = Tx(op: Op, stage: Stage)

  datatype State = State(users: map<Uid, User>, adminLock: Option<Pid>, rowLocks: map<Uid, Pid>, txs: map<Pid, Tx>)

  datatype Step =
    | Begin(pid: Pid, op: Op)
    | LockAdmin(pid: Pid)
    | LockRow(pid: Pid)
    | Check(pid: Pid)
    | Change(pid: Pid)
    | Insert(pid: Pid)
    | Commit(pid: Pid)
    | Abort(pid: Pid)

  /** The operation can leave no admin, so it takes the admin role's lock first. */
  predicate TakesAdminLock(op: Op) {
    op.Disable? || (op.Revoke? && op.role == ADMIN)
  }

  predicate IsAdmin(u: User) {
    u.active && ADMIN in u.roles
  }

  /** The user as the operation leaves them. */
  function After(op: Op, u: User): User {
    match op
    case Disable(_) => u.(active := false)
    case Enable(_) => u.(active := true)
    case Grant(_, r) => u.(roles := u.roles + {r})
    case Revoke(_, r) => u.(roles := u.roles - {r})
    case Create(_, _) => u
  }

  /** The operation takes an active admin away. */
  predicate Ends(op: Op, before: User) {
    IsAdmin(before) && !IsAdmin(After(op, before))
  }

  /** Another active admin has committed. */
  ghost predicate OtherAdmin(users: map<Uid, User>, id: Uid) {
    exists u | u in users :: u != id && IsAdmin(users[u])
  }

  ghost predicate Enabled(s: State, step: Step) {
    match step
    case Begin(pid, op) => pid !in s.txs && (op.Create? ==> op.roles != {})
    case LockAdmin(pid) => pid in s.txs && s.txs[pid].stage.Began? && TakesAdminLock(s.txs[pid].op) && s.adminLock.None?
    case LockRow(pid) =>
      && pid in s.txs && !s.txs[pid].op.Create?
      && s.txs[pid].stage == (if TakesAdminLock(s.txs[pid].op) then AdminLocked else Began)
      && s.txs[pid].op.user in s.users && s.txs[pid].op.user !in s.rowLocks
    case Check(pid) =>
      && pid in s.txs && s.txs[pid].stage.Locked? && !s.txs[pid].op.Create?
      && var op, before := s.txs[pid].op, s.txs[pid].stage.before;
         && After(op, before) != before
         && (Ends(op, before) ==> OtherAdmin(s.users, op.user))
         && (op.Revoke? ==> |before.roles| != 1)
    case Change(pid) => pid in s.txs && s.txs[pid].stage.Checked?
    case Insert(pid) => pid in s.txs && s.txs[pid].op.Create? && s.txs[pid].stage.Began?
    case Commit(pid) =>
      && pid in s.txs
      && (s.txs[pid].stage.Written? || (s.txs[pid].stage.Inserted? && s.txs[pid].op.user !in s.users))
    case Abort(pid) => pid in s.txs
  }

  function Release(s: State, pid: Pid): State
    requires pid in s.txs
  {
    s.(txs := s.txs - {pid}, adminLock := if s.adminLock == Some(pid) then None else s.adminLock,
       rowLocks := map u | u in s.rowLocks && s.rowLocks[u] != pid :: s.rowLocks[u])
  }

  ghost function Next(s: State, step: Step): State
    requires Enabled(s, step)
  {
    match step
    case Begin(pid, op) => s.(txs := s.txs[pid := Tx(op, Began)])
    case LockAdmin(pid) => s.(txs := s.txs[pid := s.txs[pid].(stage := AdminLocked)], adminLock := Some(pid))
    case LockRow(pid) =>
      var u := s.txs[pid].op.user;
      s.(txs := s.txs[pid := s.txs[pid].(stage := Locked(s.users[u]))], rowLocks := s.rowLocks[u := pid])
    case Check(pid) => s.(txs := s.txs[pid := s.txs[pid].(stage := Checked(s.txs[pid].stage.before))])
    case Change(pid) =>
      var op, before := s.txs[pid].op, s.txs[pid].stage.before;
      s.(txs := s.txs[pid := s.txs[pid].(stage := Written(before, After(op, before)))])
    case Insert(pid) => s.(txs := s.txs[pid := s.txs[pid].(stage := Inserted(User(true, s.txs[pid].op.roles)))])
    case Commit(pid) => Release(s, pid).(users := s.users[s.txs[pid].op.user := s.txs[pid].stage.after])
    case Abort(pid) => Release(s, pid)
  }

  // ------------------------------------------------------------ what every step keeps

  type Txs = map<Pid, Tx>

  predicate HoldsRow(t: Tx) {
    t.stage.Locked? || t.stage.Checked? || t.stage.Written?
  }

  /** Who holds a user's row has its lock, and read it as it still is. */
  ghost predicate RowsOk(users: map<Uid, User>, rowLocks: map<Uid, Pid>, txs: Txs) {
    forall pid | pid in txs && HoldsRow(txs[pid]) ::
      var u := txs[pid].op.user;
      u in rowLocks && rowLocks[u] == pid && u in users && users[u] == txs[pid].stage.before
  }

  /** Only the holder of the admin role's lock is past the step that takes it. */
  ghost predicate AdminOk(adminLock: Option<Pid>, txs: Txs) {
    forall pid | pid in txs && TakesAdminLock(txs[pid].op) && !txs[pid].stage.Began? && !txs[pid].op.Create? ::
      adminLock == Some(pid)
  }

  /** What was written is what the operation makes of the row, with a role left, and a new user has one. */
  ghost predicate WritesOk(txs: Txs) {
    && (forall pid | pid in txs && txs[pid].stage.Checked? ::
          !txs[pid].op.Create? && (txs[pid].op.Revoke? ==> |txs[pid].stage.before.roles| != 1))
    && (forall pid | pid in txs && txs[pid].stage.Written? ::
          !txs[pid].op.Create? && txs[pid].stage.after == After(txs[pid].op, txs[pid].stage.before)
          && (txs[pid].stage.before.roles != {} ==> txs[pid].stage.after.roles != {}))
    && (forall pid | pid in txs && txs[pid].stage.Inserted? ::
          txs[pid].op.Create? && txs[pid].stage.after.roles != {} && txs[pid].stage.after.active)
    && (forall pid | pid in txs && txs[pid].op.Create? :: txs[pid].op.roles != {})
  }

  /** The transaction was let through, and takes an active admin away. */
  predicate IsEnding(t: Tx) {
    (t.stage.Checked? || t.stage.Written?) && Ends(t.op, t.stage.before)
  }

  /** A change that takes an active admin away has another to leave, from its check to its commit. */
  ghost predicate EndsOk(users: map<Uid, User>, txs: Txs) {
    forall pid | pid in txs && IsEnding(txs[pid]) ::
      TakesAdminLock(txs[pid].op) && OtherAdmin(users, txs[pid].op.user)
  }

  ghost predicate HasAdmin(users: map<Uid, User>) {
    exists u | u in users :: IsAdmin(users[u])
  }

  ghost predicate HaveRoles(users: map<Uid, User>) {
    forall u | u in users :: users[u].roles != {}
  }

  ghost predicate Inv(s: State) {
    && RowsOk(s.users, s.rowLocks, s.txs) && AdminOk(s.adminLock, s.txs) && WritesOk(s.txs) && EndsOk(s.users, s.txs)
    && HasAdmin(s.users) && HaveRoles(s.users)
  }

  lemma {:induction false} RowsKept(s: State, step: Step)
    requires Enabled(s, step) && RowsOk(s.users, s.rowLocks, s.txs)
    ensures var t := Next(s, step); RowsOk(t.users, t.rowLocks, t.txs)
  {
  }

  lemma {:induction false} AdminKept(s: State, step: Step)
    requires Enabled(s, step) && AdminOk(s.adminLock, s.txs)
    ensures var t := Next(s, step); AdminOk(t.adminLock, t.txs)
  {
  }

  lemma {:induction false} RoleLeft(roles: set<Role>, r: Role)
    requires roles != {} && |roles| != 1
    ensures roles - {r} != {}
  {
    if r in roles { assert |roles - {r}| == |roles| - 1; } else { assert roles - {r} == roles; }
  }

  lemma {:induction false} WritesKept(s: State, step: Step)
    requires Enabled(s, step) && WritesOk(s.txs)
    ensures WritesOk(Next(s, step).txs)
  {
    if step.Change? && s.txs[step.pid].op.Revoke? {
      var before := s.txs[step.pid].stage.before;
      if before.roles != {} { RoleLeft(before.roles, s.txs[step.pid].op.role); }
    }
  }

  /** The user of a commit is an admin after it if they were before, unless the change was to end that. */
  lemma {:induction false} CommitKeepsAdmin(s: State, pid: Pid, u: Uid)
    requires Enabled(s, Commit(pid)) && RowsOk(s.users, s.rowLocks, s.txs) && WritesOk(s.txs)
    requires u in s.users && IsAdmin(s.users[u])
    requires s.txs[pid].stage.Written? && s.txs[pid].op.user == u ==> !Ends(s.txs[pid].op, s.txs[pid].stage.before)
    ensures var t := Next(s, Commit(pid)); u in t.users && IsAdmin(t.users[u])
  {
  }

  lemma {:induction false} EndsKeptByCommit(s: State, committer: Pid, pid: Pid)
    requires Enabled(s, Commit(committer)) && pid != committer && pid in s.txs
    requires EndsOk(s.users, s.txs) && WritesOk(s.txs) && AdminOk(s.adminLock, s.txs)
      && RowsOk(s.users, s.rowLocks, s.txs)
    requires IsEnding(s.txs[pid])
    ensures OtherAdmin(Next(s, Commit(committer)).users, s.txs[pid].op.user)
  {
    var u :| u in s.users && u != s.txs[pid].op.user && IsAdmin(s.users[u]);
    CommitKeepsAdmin(s, committer, u);
  }

  lemma {:induction false} EndsKept(s: State, step: Step)
    requires Enabled(s, step) && EndsOk(s.users, s.txs) && WritesOk(s.txs) && AdminOk(s.adminLock, s.txs)
      && RowsOk(s.users, s.rowLocks, s.txs)
    ensures var t := Next(s, step); EndsOk(t.users, t.txs)
  {
    if step.Commit? {
      var t := Next(s, step);
      forall pid | pid in t.txs && IsEnding(t.txs[pid])
        ensures TakesAdminLock(t.txs[pid].op) && OtherAdmin(t.users, t.txs[pid].op.user)
      {
        EndsKeptByCommit(s, step.pid, pid);
      }
    }
  }

  lemma {:induction false} AdminsKept(s: State, step: Step)
    requires Enabled(s, step) && Inv(s)
    ensures HasAdmin(Next(s, step).users) && HaveRoles(Next(s, step).users)
  {
    if step.Commit? {
      var tx := s.txs[step.pid];
      if tx.stage.Written? && Ends(tx.op, tx.stage.before) {
        var u :| u in s.users && u != tx.op.user && IsAdmin(s.users[u]);
        CommitKeepsAdmin(s, step.pid, u);
      } else {
        var u :| u in s.users && IsAdmin(s.users[u]);
        CommitKeepsAdmin(s, step.pid, u);
      }
    }
  }

  lemma {:induction false} InvKept(s: State, step: Step)
    requires Enabled(s, step) && Inv(s)
    ensures Inv(Next(s, step))
  {
    RowsKept(s, step);
    AdminKept(s, step);
    WritesKept(s, step);
    EndsKept(s, step);
    AdminsKept(s, step);
  }

  ghost predicate Moves(s: State, t: State) {
    exists step :: Enabled(s, step) && t == Next(s, step)
  }

  /** A run from any users with an active admin among them and a role each. */
  ghost predicate Run(run: seq<State>) {
    && run != [] && HasAdmin(run[0].users) && HaveRoles(run[0].users)
    && run[0].txs == map[] && run[0].rowLocks == map[] && run[0].adminLock.None?
    && forall i | 0 <= i < |run| - 1 :: Moves(run[i], run[i + 1])
  }

  /** In every state of every run an active admin is left, and every user has a role. */
  lemma {:induction false} AlwaysAnAdmin(run: seq<State>, i: nat)
    requires Run(run) && i < |run|
    ensures Inv(run[i]) && HasAdmin(run[i].users) && HaveRoles(run[i].users)
  {
    if i > 0 {
      AlwaysAnAdmin(run, i - 1);
      assert Moves(run[i - 1], run[i - 1 + 1]);
      var step :| Enabled(run[i - 1], step) && run[i] == Next(run[i - 1], step);
      InvKept(run[i - 1], step);
    }
  }
}
