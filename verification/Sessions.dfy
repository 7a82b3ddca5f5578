/**
  Logins, session touches, password changes and disablings, as interleaved atomic steps.

  A PostgreSQL row lock is held from the statement that takes it to the end of its
  transaction; what a transaction writes shows when it commits.  A Redis MULTI block is one
  step.  Any process may stop after any step, and a Redis command that failed at the client
  may still be carried out later.
*/
module Sessions {
  import opened Basics

  type User = nat
  type Key = nat
  type Hash = nat
  type Pid = nat

  /** How long a session may idle, and how long it may last. */
  datatype Lifetimes = Lifetimes(idle: nat, maxAge: nat) {
    function Deadline(created: nat, lastSeen: nat): nat {
      if lastSeen + idle < created + maxAge then lastSeen + idle else created + maxAge
    }
  }

  datatype Row = Row(hash: Option<Hash>, active: bool)
  datatype Session = Session(user: User, created: nat, deadline: nat)
  /** Whom a key was drawn for, and the creation time it carries. */
  datatype Birth = Birth(user: User, created: nat)
  datatype Index = Index(keys: set<Key>, deadline: nat)

  /** Why a user's sessions end: a new password replaced a hash, or the user was disabled. */
  datatype Ending = Password(next: Hash) | Disabling

  datatype Proc =
    | Checked(user: User, hash: Hash)                               // read the row; the password matched
    | Recorded(user: User, hash: Hash, upgrade: Option<Hash>)       // RecordLogin found the row unchanged
    | Created(user: User, hash: Hash, upgrade: Option<Hash>, key: Key) // session in Redis, not committed
    | Committed(user: User, key: Key)                               // the token is about to be returned
    | Undoing(user: User, key: Key)                                 // failed: the session is to be deleted
    | Lost(user: User, key: Key, created: nat)                      // a failed Create that may still happen
    | Looking(key: Key, session: Session)                           // Lookup has read the session
    | Changing(user: User, why: Ending)                             // row locked and written
    | Listed(user: User, why: Ending, keys: set<Key>)               // SMEMBERS answered
    | Deleted(user: User, why: Ending)                              // the sessions are gone, not committed

  datatype Event =
    | LoggedIn(user: User, key: Key, hash: Hash, upgrade: Option<Hash>)
    | Ended(user: User, why: Ending, replaced: Option<Hash>)

  datatype State = State(
    clock: nat, rows: map<User, Row>, locks: map<User, Pid>,
    sessions: map<Key, Session>, index: map<User, Index>,
    procs: map<Pid, Proc>, hashes: set<Hash>, births: map<Key, Birth>,
    log: seq<Event>, returned: set<Key>)

  // ------------------------------------------------------------ steps

  datatype Step =
    | Tick
    | Check(pid: Pid, user: User)
    | Record(pid: Pid, upgrade: Option<Hash>)
    | Create(pid: Pid, key: Key, created: nat)
    | CreateFails(pid: Pid, key: Key, created: nat)
    | LateCreate(pid: Pid)
    | CommitLogin(pid: Pid)
    | CommitLoginUnseen(pid: Pid)
    | AbortLogin(pid: Pid)
    | Return(pid: Pid)
    | Undo(pid: Pid)
    | Look(pid: Pid, key: Key)
    | Touch(pid: Pid, seen: nat)
    | Delete(key: Key)
    | Lock(pid: Pid, user: User, why: Ending, ifHash: Option<Hash>)
    | List(pid: Pid)
    | DeleteListed(pid: Pid)
    | CommitChange(pid: Pid)
    | Enable(user: User)
    | Stop(pid: Pid)

  /** The user whose row the process has locked. */
  function Holds(p: Proc): Option<User> {
    match p
    case Recorded(u, _, _) => Some(u)
    case Created(u, _, _, _) => Some(u)
    case Changing(u, _) => Some(u)
    case Listed(u, _, _) => Some(u)
    case Deleted(u, _) => Some(u)
    case _ => None
  }

  /** The locks once the process p has ended its transaction. */
  function Unlocked(locks: map<User, Pid>, p: Proc): map<User, Pid> {
    if Holds(p).Some? then locks - {Holds(p).value} else locks
  }

  /** SET of a session that expires at its deadline; one that is past already is gone at once. */
  function SetSession(s: State, k: Key, x: Session): map<Key, Session> {
    if s.clock < x.deadline then s.sessions[k := x] else s.sessions - {k}
  }

  /** SET NX of the session, SADD to the user's index and EXPIRE of the index. */
  function PutSession(c: Lifetimes, s: State, u: User, k: Key, created: nat): State {
    s.(sessions := SetSession(s, k, Session(u, created, c.Deadline(created, created))),
       index := s.index[u := Index((if u in s.index then s.index[u].keys else {}) + {k}, s.clock + c.maxAge)])
  }

  /** DEL of the sessions and SREM from the index of u. */
  function DropSessions(s: State, u: User, ks: set<Key>): State {
    s.(sessions := s.sessions - ks,
       index := if u in s.index then s.index[u := s.index[u].(keys := s.index[u].keys - ks)] else s.index)
  }

  function Clear(s: State, pid: Pid): State
    requires pid in s.procs
  {
    s.(procs := s.procs - {pid}, locks := Unlocked(s.locks, s.procs[pid]))
  }

  /** The row after a change commits. */
  function Changed(r: Row, why: Ending): Row {
    match why
    case Password(h) => r.(hash := Some(h))
    case Disabling => r.(active := false)
  }

  function Become(s: State, pid: Pid, p: Proc): State {
    s.(procs := s.procs[pid := p])
  }

  predicate Enabled(s: State, step: Step) {
    match step
    case Tick => true
    case Check(pid, u) => pid !in s.procs && u in s.rows && s.rows[u].active && s.rows[u].hash.Some?
    case Record(pid, upgrade) =>
      && pid in s.procs && s.procs[pid].Checked? && s.procs[pid].user !in s.locks
      && (upgrade.Some? ==> upgrade.value !in s.hashes)
    case Create(pid, k, created) =>
      pid in s.procs && s.procs[pid].Recorded? && k !in s.births && created <= s.clock
    case CreateFails(pid, k, created) =>
      pid in s.procs && s.procs[pid].Recorded? && k !in s.births && created <= s.clock
    case LateCreate(pid) => pid in s.procs && s.procs[pid].Lost?
    case CommitLogin(pid) => pid in s.procs && s.procs[pid].Created?
    case CommitLoginUnseen(pid) => pid in s.procs && s.procs[pid].Created?
    case AbortLogin(pid) => pid in s.procs && s.procs[pid].Created?
    case Return(pid) => pid in s.procs && s.procs[pid].Committed?
    case Undo(pid) => pid in s.procs && s.procs[pid].Undoing?
    case Look(pid, k) => pid !in s.procs && k in s.sessions
    case Touch(pid, seen) => pid in s.procs && s.procs[pid].Looking? && seen <= s.clock
    case Delete(k) => k in s.sessions
    case Lock(pid, u, why, ifHash) =>
      && pid !in s.procs && u in s.rows && u !in s.locks
      && (why.Password? ==> why.next !in s.hashes)
      && (why.Disabling? ==> s.rows[u].active)
      && (ifHash.Some? ==> s.rows[u].hash == ifHash)
    case List(pid) => pid in s.procs && s.procs[pid].Changing?
    case DeleteListed(pid) => pid in s.procs && s.procs[pid].Listed?
    case CommitChange(pid) => pid in s.procs && s.procs[pid].Deleted? && s.procs[pid].user in s.rows
    case Enable(u) => u in s.rows && u !in s.locks
    case Stop(pid) => pid in s.procs
  }

  function Next(c: Lifetimes, s: State, step: Step): State
    requires Enabled(s, step)
  {
    match step
    case Tick =>
      var now := s.clock + 1;
      s.(clock := now,
         sessions := map k | k in s.sessions && now < s.sessions[k].deadline :: s.sessions[k],
         index := map u | u in s.index && now < s.index[u].deadline :: s.index[u])
    case Check(pid, u) => Become(s, pid, Checked(u, s.rows[u].hash.value))
    case Record(pid, upgrade) =>
      var p := s.procs[pid];
      if p.user in s.rows && s.rows[p.user] == Row(Some(p.hash), true)
      then Become(s, pid, Recorded(p.user, p.hash, upgrade)).(
        locks := s.locks[p.user := pid],
        hashes := if upgrade.Some? then s.hashes + {upgrade.value} else s.hashes)
      else s.(procs := s.procs - {pid})
    case Create(pid, k, created) =>
      var p := s.procs[pid];
      var t := Become(s, pid, Created(p.user, p.hash, p.upgrade, k)).(births := s.births[k := Birth(p.user, created)]);
      PutSession(c, t, p.user, k, created)
    case CreateFails(pid, k, created) =>
      var p := s.procs[pid];
      Become(s, pid, Lost(p.user, k, created)).(
        locks := Unlocked(s.locks, p), births := s.births[k := Birth(p.user, created)])
    case LateCreate(pid) =>
      var p := s.procs[pid];
      PutSession(c, s.(procs := s.procs - {pid}), p.user, p.key, p.created)
    case CommitLogin(pid) =>
      var p := s.procs[pid];
      Become(LoginCommits(s, p), pid, Committed(p.user, p.key))
    case CommitLoginUnseen(pid) =>
      var p := s.procs[pid];
      Become(LoginCommits(s, p), pid, Undoing(p.user, p.key))
    case AbortLogin(pid) =>
      var p := s.procs[pid];
      Become(s, pid, Undoing(p.user, p.key)).(locks := Unlocked(s.locks, p))
    case Return(pid) =>
      s.(procs := s.procs - {pid}, returned := s.returned + {s.procs[pid].key})
    case Undo(pid) =>
      var p := s.procs[pid];
      DropSessions(s.(procs := s.procs - {pid}), p.user, {p.key})
    case Look(pid, k) => Become(s, pid, Looking(k, s.sessions[k]))
    case Touch(pid, seen) =>
      var p := s.procs[pid];
      var kept := s.(procs := s.procs - {pid});
      if p.key in s.sessions
      then kept.(sessions := SetSession(s, p.key, p.session.(deadline := c.Deadline(p.session.created, seen))))
      else kept
    case Delete(k) => DropSessions(s, s.sessions[k].user, {k})
    case Lock(pid, u, why, ifHash) =>
      Become(s, pid, Changing(u, why)).(
        locks := s.locks[u := pid], hashes := if why.Password? then s.hashes + {why.next} else s.hashes)
    case List(pid) =>
      var p := s.procs[pid];
      Become(s, pid, Listed(p.user, p.why, if p.user in s.index then s.index[p.user].keys else {}))
    case DeleteListed(pid) =>
      var p := s.procs[pid];
      DropSessions(Become(s, pid, Deleted(p.user, p.why)), p.user, p.keys)
    case CommitChange(pid) =>
      var p := s.procs[pid];
      Clear(s, pid).(
        rows := s.rows[p.user := Changed(s.rows[p.user], p.why)],
        log := s.log + [Ended(p.user, p.why, if p.why.Password? then s.rows[p.user].hash else None)])
    case Enable(u) => s.(rows := s.rows[u := s.rows[u].(active := true)])
    case Stop(pid) => Clear(s, pid)
  }

  /** The login's transaction commits: the record, and the new hash if it made one. */
  function LoginCommits(s: State, p: Proc): State
    requires p.Created?
  {
    s.(locks := Unlocked(s.locks, p),
       log := s.log + [LoggedIn(p.user, p.key, p.hash, p.upgrade)],
       rows := if p.upgrade.Some? && p.user in s.rows
               then s.rows[p.user := s.rows[p.user].(hash := p.upgrade)] else s.rows)
  }

  // ------------------------------------------------------------ runs

  ghost predicate Start(s: State) {
    && s.locks == map[] && s.sessions == map[] && s.index == map[] && s.procs == map[]
    && s.births == map[] && s.log == [] && s.returned == {}
    && forall u | u in s.rows && s.rows[u].hash.Some? :: s.rows[u].hash.value in s.hashes
  }

  /** The states of a run, one step apart. */
  ghost predicate Run(c: Lifetimes, run: seq<State>) {
    && run != [] && Start(run[0])
    && forall i | 0 <= i < |run| - 1 :: Moves(c, run[i], run[i + 1])
  }

  ghost predicate Moves(c: Lifetimes, s: State, t: State) {
    exists step :: Enabled(s, step) && t == Next(c, s, step)
  }

  // ------------------------------------------------------------ what every step keeps
  // Each predicate speaks of the few parts of the state it depends on, so that a step that
  // leaves those parts alone keeps it outright.

  type Procs = map<Pid, Proc>
  type Log = seq<Event>

  /** A lock belongs to the process that holds it, and every holder has its lock. */
  ghost predicate LocksOk(locks: map<User, Pid>, procs: Procs) {
    && (forall u | u in locks :: locks[u] in procs && Holds(procs[locks[u]]) == Some(u))
    && (forall pid | pid in procs :: Holds(procs[pid]).Some? ==>
          Holds(procs[pid]).value in locks && locks[Holds(procs[pid]).value] == pid)
  }

  /** Every session is in its user's index, which lasts at least as long. */
  ghost predicate IndexOk(c: Lifetimes, clock: nat, sessions: map<Key, Session>, index: map<User, Index>) {
    forall k | k in sessions ::
      var x := sessions[k];
      && x.user in index && k in index[x.user].keys
      && x.deadline <= x.created + c.maxAge <= index[x.user].deadline
      && clock < x.deadline
  }

  /** The key a login process carries. */
  function KeyOf(p: Proc): Option<Key> {
    match p
    case Created(_, _, _, k) => Some(k)
    case Committed(_, k) => Some(k)
    case Undoing(_, k) => Some(k)
    case Lost(_, k, _) => Some(k)
    case _ => None
  }

  /** No two login processes carry one key, and nobody has looked up one that is lost. */
  ghost predicate KeysDistinct(procs: Procs) {
    && (forall p, q | p in procs && q in procs && p != q ::
          KeyOf(procs[p]).Some? ==> KeyOf(procs[p]) != KeyOf(procs[q]))
    && (forall p, q | p in procs && q in procs ::
          procs[p].Lost? && procs[q].Looking? ==> procs[p].key != procs[q].key)
  }

  /** The record of a login of u that returned, or was to return, the key k. */
  predicate LogsIn(e: Event, u: User, k: Key) {
    e.LoggedIn? && e.user == u && e.key == k
  }

  /** Some login with the key k committed. */
  ghost predicate Logged(log: Log, k: Key) {
    exists i | 0 <= i < |log| :: log[i].LoggedIn? && log[i].key == k
  }

  /** The key of a login that has not committed, or never will, is in no record. */
  ghost predicate KeysUnlogged(procs: Procs, log: Log) {
    forall pid | pid in procs :: procs[pid].Lost? || procs[pid].Created? ==> !Logged(log, procs[pid].key)
  }

  /** A session whose creation failed at the client is not there yet. */
  ghost predicate LostKeys(procs: Procs, sessions: map<Key, Session>) {
    forall pid | pid in procs :: procs[pid].Lost? ==> procs[pid].key !in sessions
  }

  /** Tokens are returned only for logins that committed. */
  ghost predicate ReturnsOk(procs: Procs, returned: set<Key>, log: Log) {
    && (forall pid | pid in procs :: procs[pid].Committed? ==> Logged(log, procs[pid].key))
    && (forall k | k in returned :: Logged(log, k))
  }

  /** The key k was drawn for u. */
  predicate Born(births: map<Key, Birth>, k: Key, u: User) {
    k in births && births[k].user == u
  }

  ghost predicate SessionOwners(sessions: map<Key, Session>, births: map<Key, Birth>) {
    forall k | k in sessions :: k in births && births[k] == Birth(sessions[k].user, sessions[k].created)
  }

  ghost predicate LogOwners(log: Log, births: map<Key, Birth>) {
    forall i | 0 <= i < |log| :: log[i].LoggedIn? ==> Born(births, log[i].key, log[i].user)
  }

  ghost predicate IndexOwners(index: map<User, Index>, births: map<Key, Birth>) {
    forall u, k | u in index && k in index[u].keys :: Born(births, k, u)
  }

  /** The keys a process knows are the ones drawn for its user. */
  ghost predicate ProcOwners(procs: Procs, births: map<Key, Birth>) {
    forall pid | pid in procs :: OwnKeys(procs[pid], births)
  }

  predicate OwnKeys(p: Proc, births: map<Key, Birth>) {
    match p
    case Created(u, _, _, k) => Born(births, k, u)
    case Committed(u, k) => Born(births, k, u)
    case Undoing(u, k) => Born(births, k, u)
    case Lost(u, k, created) => k in births && births[k] == Birth(u, created)
    case Looking(k, x) => k in births && births[k] == Birth(x.user, x.created)
    case Listed(u, _, keys) => forall k | k in keys :: Born(births, k, u)
    case _ => true
  }

  /** No session is dated ahead of the clock. */
  ghost predicate BirthTimes(births: map<Key, Birth>, clock: nat) {
    forall k | k in births :: births[k].created <= clock
  }

  /** Once a change has listed the sessions it deletes every logged one; then none is left. */
  ghost predicate ChangesOk(procs: Procs, log: Log, sessions: map<Key, Session>) {
    forall pid, i | pid in procs && 0 <= i < |log| :: Ends(procs[pid], log[i], sessions)
  }

  predicate Ends(p: Proc, e: Event, sessions: map<Key, Session>) {
    && (p.Listed? && e.LoggedIn? && e.user == p.user && e.key in sessions ==> e.key in p.keys)
    && (p.Deleted? && e.LoggedIn? && e.user == p.user ==> e.key !in sessions)
  }

  /** A committed change ended every session that a login recorded before it started. */
  ghost predicate EndingsOk(log: Log, sessions: map<Key, Session>) {
    forall i, j | 0 <= i < j < |log| ::
      log[i].LoggedIn? && log[j].Ended? && log[i].user == log[j].user ==> log[i].key !in sessions
  }

  /** The hash that the event replaced: by a new password, or by one with newer parameters. */
  function Replaced(e: Event): Option<Hash> {
    match e
    case LoggedIn(_, _, hash, upgrade) => if upgrade.Some? then Some(hash) else None
    case Ended(_, _, replaced) => replaced
  }

  /** The hash h is a user's, or was until it was replaced. */
  ghost predicate Stored(rows: map<User, Row>, log: Log, h: Hash) {
    || (exists u | u in rows :: rows[u].hash == Some(h))
    || (exists i | 0 <= i < |log| :: Replaced(log[i]) == Some(h))
  }

  /** Stored hashes were made, and none that was replaced is its user's again. */
  ghost predicate RowHashes(rows: map<User, Row>, log: Log, hashes: set<Hash>) {
    && (forall h | Stored(rows, log, h) :: h in hashes)
    && (forall i | 0 <= i < |log| :: Replaced(log[i]).Some? ==>
          log[i].user in rows && rows[log[i].user].hash != Replaced(log[i]))
  }

  /** A login past its record has the row locked, and the hash it checked is still there. */
  ghost predicate LoginRows(procs: Procs, rows: map<User, Row>) {
    forall pid | pid in procs :: procs[pid].Recorded? || procs[pid].Created? ==>
      procs[pid].user in rows && rows[procs[pid].user].hash == Some(procs[pid].hash)
  }

  /** The new hash a transaction has written and not committed. */
  function Pending(p: Proc): Option<Hash> {
    match p
    case Recorded(_, _, up) => up
    case Created(_, _, up, _) => up
    case Changing(_, why) => NewHash(why)
    case Listed(_, why, _) => NewHash(why)
    case Deleted(_, why) => NewHash(why)
    case _ => None
  }

  function NewHash(why: Ending): Option<Hash> {
    if why.Password? then Some(why.next) else None
  }

  /** Written hashes are new: made once, and not stored yet. */
  ghost predicate PendingNew(procs: Procs, rows: map<User, Row>, log: Log) {
    forall pid | pid in procs :: Pending(procs[pid]).Some? ==> !Stored(rows, log, Pending(procs[pid]).value)
  }

  ghost predicate PendingOnce(procs: Procs, hashes: set<Hash>) {
    && (forall pid | pid in procs :: Pending(procs[pid]).Some? ==> Pending(procs[pid]).value in hashes)
    && (forall p, q | p in procs && q in procs && p != q ::
          Pending(procs[p]).Some? ==> Pending(procs[p]) != Pending(procs[q]))
  }

  /** No login that checked a replaced hash is recorded after what replaced it. */
  ghost predicate LoginHashes(log: Log) {
    forall i, j | 0 <= i < j < |log| ::
      log[j].LoggedIn? && log[i].user == log[j].user ==> Replaced(log[i]) != Some(log[j].hash)
  }

  ghost predicate KeysInv(s: State) {
    && KeysDistinct(s.procs) && KeysUnlogged(s.procs, s.log) && LostKeys(s.procs, s.sessions)
    && ReturnsOk(s.procs, s.returned, s.log)
  }

  ghost predicate OwnersInv(s: State) {
    && SessionOwners(s.sessions, s.births) && LogOwners(s.log, s.births) && IndexOwners(s.index, s.births)
    && ProcOwners(s.procs, s.births) && BirthTimes(s.births, s.clock)
  }

  ghost predicate HashesInv(s: State) {
    && RowHashes(s.rows, s.log, s.hashes) && LoginRows(s.procs, s.rows) && PendingNew(s.procs, s.rows, s.log)
    && PendingOnce(s.procs, s.hashes) && LoginHashes(s.log)
  }

  ghost predicate Inv(c: Lifetimes, s: State) {
    && LocksOk(s.locks, s.procs) && IndexOk(c, s.clock, s.sessions, s.index)
    && KeysInv(s) && OwnersInv(s) && HashesInv(s)
    && ChangesOk(s.procs, s.log, s.sessions) && EndingsOk(s.log, s.sessions)
  }
}
