/**
  Probe definitions, database targets and probe assignments: what may change them, what an
  approval covers, and the check that the collector runs what was approved.

  A transaction that changes a target or its assignments holds the target's row lock from its
  first read to its commit, so each is one step.  The applied check lists in one transaction and
  marks in others: those are steps of their own.  Every transaction that writes an assignment
  stamps it with a time of its own.
*/
module Approvals {
  import opened Basics
  import opened InventoryTypes

  type DefId = nat
  type TargetId = nat
  type Id = nat
  type Pid = nat
  type Stamp = nat

  /** A definition version; a built-in overrides nothing, a custom one the built-in probe it names. */
  datatype Definition = Definition(
    engine: Name, name: Name, version: nat, overrides: Option<Name>, query: Name, timeout: Option<nat>, enabled: bool)

  datatype Target = Target(managed: Manager, name: Name, engine: Name, connection: Connection, active: bool)
  datatype Assignment = Assignment(
    target: TargetId, managed: Manager, definition: DefId, policy: Policy, state: Approval, stamp: Stamp)

  type Definitions = map<DefId, Definition>
  type Targets = map<TargetId, Target>
  type Assignments = map<Id, Assignment>

  /** What an approval covers. */
  datatype Cover = Cover(definition: DefId, policy: Policy, connection: Connection)

  // ------------------------------------------------------------ policies

  const MIN_INTERVAL: nat := 5
  const MAX_INTERVAL: nat := 3600
  const MAX_TIMEOUT: nat := 25000
  const MAX_ROWS: nat := 100000

  /** The timeout a probe runs with: the assignment's own, or else its definition's. */
  function TimeoutOf(p: Policy, definition: Option<nat>): Option<nat> {
    if p.timeout.Some? then p.timeout else definition
  }

  predicate PolicyFits(p: Policy, definition: Option<nat>) {
    && MIN_INTERVAL <= p.interval <= MAX_INTERVAL
    && (p.timeout.Some? ==> 1 <= p.timeout.value <= MAX_TIMEOUT)
    && (TimeoutOf(p, definition).Some? ==> TimeoutOf(p, definition).value <= p.interval * 1000)
    && (p.maxRows.Some? ==> 1 <= p.maxRows.value <= MAX_ROWS)
  }

  /** The probe a definition runs. */
  function ProbeOf(d: Definition): Name {
    if d.overrides.Some? then d.overrides.value else d.name
  }

  predicate IsApproved(state: Approval) {
    state.Approved? || state.Proposed? || state.Applied?
  }

  // ------------------------------------------------------------ what the collector is to run

  datatype Probe = Probe(name: Name, query: Option<Name>, timeout: Option<nat>, maxRows: Option<nat>)
  datatype Place = Place(name: Name, host: Name, port: nat, database: Name)
  /** An assignment as a render holds it. */
  datatype View = View(target: TargetId, interval: nat, place: Place, credential: Name, probe: Probe)

  function RenderedProbe(d: Definition, p: Policy): Probe {
    Probe(ProbeOf(d), if d.overrides.None? then None else Some(d.query), TimeoutOf(p, d.timeout), p.maxRows)
  }

  function PlaceOf(t: Target): Place {
    Place(t.name, t.connection.host, t.connection.port, t.connection.database)
  }

  function ViewOf(a: Assignment, t: Target, d: Definition): View {
    View(a.target, a.policy.interval, PlaceOf(t), t.connection.credential, RenderedProbe(d, a.policy))
  }

  datatype RunningTarget = RunningTarget(place: Place, probes: seq<Probe>)
  datatype RunningCollector = RunningCollector(enabled: bool, interval: nat, targets: seq<RunningTarget>)
  /** What the collector answers that it runs, by target and interval. */
  type Answer = map<(TargetId, nat), RunningCollector>

  /** The first of the targets at the place. */
  function FirstAt(targets: seq<RunningTarget>, place: Place): Option<RunningTarget> {
    if targets == [] then None
    else if targets[0].place == place then Some(targets[0])
    else FirstAt(targets[1..], place)
  }

  /** The collector runs the assignment as the render holds it. */
  predicate RunsAs(answer: Answer, v: View) {
    && (v.target, v.interval) in answer
    && var c := answer[(v.target, v.interval)];
       c.enabled && c.interval == v.interval
       && var t := FirstAt(c.targets, v.place);
          t.Some? && v.probe in t.value.probes
  }

  method RunsAsRendered(answer: Answer, v: View) returns (r: bool)
    ensures r == RunsAs(answer, v)
  {
    if (v.target, v.interval) !in answer { return false; }
    var c := answer[(v.target, v.interval)];
    if !c.enabled || c.interval != v.interval { return false; }
    for i := 0 to |c.targets|
      invariant FirstAt(c.targets, v.place) == FirstAt(c.targets[i..], v.place)
    {
      if c.targets[i].place == v.place { return v.probe in c.targets[i].probes; }
      assert c.targets[i..][1..] == c.targets[i + 1..];
    }
    r := false;
  }

  // ------------------------------------------------------------ the state and its steps

  /** A row of the applied check's list: the stamp it had and what it said. */
  datatype Listed = Listed(stamp: Stamp, view: View)

  datatype State = State(
    definitions: Definitions, targets: Targets, assignments: Assignments, clock: Stamp,
    covers: map<Id, Cover>, checks: map<Pid, map<Id, Listed>>)

  datatype Step =
    | CreateDefinition(d: DefId, definition: Definition)
    | AddVersion(d: DefId, latest: DefId, query: Name, timeout: Option<nat>)
    | SetEnabled(of: DefId, enabled: bool)
    | CreateTarget(t: TargetId, target: Target)
    | UpdateTarget(t: TargetId, connection: Connection, active: bool)
    | DeleteTarget(t: TargetId)
    | Create(id: Id, t: TargetId, d: DefId, policy: Policy)
    | Update(id: Id, d: DefId, policy: Policy)
    | Approve(id: Id)
    | Reject(id: Id)
    | Delete(id: Id)
    | ApplyFile(t: TargetId, connection: Connection, active: bool, wants: map<Name, Policy>, created: map<Id, DefId>)
    | List(pid: Pid)
    | Mark(pid: Pid, id: Id, answer: Answer)
    | EndCheck(pid: Pid)

  /** The definition can be assigned to a target of the engine. */
  predicate Assignable(ds: Definitions, d: DefId, engine: Name) {
    d in ds && ds[d].enabled && ds[d].engine == engine
  }

  /** The API may change the assignment. */
  predicate Mine(s: State, id: Id) {
    && id in s.assignments && s.assignments[id].target in s.targets && s.assignments[id].definition in s.definitions
    && s.assignments[id].managed.Api?
  }

  /** Some assignment of the target runs the probe already. */
  predicate ProbeTaken(s: State, t: TargetId, d: Definition) {
    exists id | id in s.assignments && s.assignments[id].target == t && s.assignments[id].definition in s.definitions ::
      var other := s.definitions[s.assignments[id].definition];
      (other.engine == d.engine && other.name == d.name) || ProbeOf(other) == ProbeOf(d)
  }

  /** An enabled, approved assignment of the target runs at another interval. */
  predicate OtherInterval(s: State, id: Id)
    requires id in s.assignments
  {
    exists other | other in s.assignments && other != id && s.assignments[other].target == s.assignments[id].target ::
      && s.assignments[other].policy.enabled && IsApproved(s.assignments[other].state)
      && s.assignments[other].policy.interval != s.assignments[id].policy.interval
  }

  /** The file's probes of a target, as the file's checker let them through. */
  predicate WantsFit(wants: map<Name, Policy>) {
    && (forall n | n in wants :: PolicyFits(wants[n], None))
    && (forall n, m | n in wants && m in wants && wants[n].enabled && wants[m].enabled ::
      wants[n].interval == wants[m].interval)
  }

  /** The assignments to be created are of the wanted probes that the target does not run yet, each once. */
  predicate CreatedFits(s: State, t: TargetId, wants: map<Name, Policy>, created: map<Id, DefId>)
    requires t in s.targets
  {
    && (forall id | id in created ::
          && id !in s.assignments && Assignable(s.definitions, created[id], s.targets[t].engine)
          && s.definitions[created[id]].overrides.None? && s.definitions[created[id]].timeout.None?
          && s.definitions[created[id]].name in wants && !ProbeTaken(s, t, s.definitions[created[id]]))
    && (forall i, j | i in created && j in created && i != j ::
          s.definitions[created[i]].name != s.definitions[created[j]].name)
  }

  predicate Enabled(s: State, step: Step) {
    match step
    case CreateDefinition(d, def) =>
      && d !in s.definitions && def.overrides.Some? && def.version == 1
      && forall e | e in s.definitions :: (s.definitions[e].engine, s.definitions[e].name) != (def.engine, def.name)
    case AddVersion(d, latest, query, timeout) =>
      && d !in s.definitions && latest in s.definitions && s.definitions[latest].overrides.Some?
        && s.definitions[latest].enabled
      && forall e | e in s.definitions ::
           (s.definitions[e].engine, s.definitions[e].name)
             == (s.definitions[latest].engine, s.definitions[latest].name) ==>
           s.definitions[e].version <= s.definitions[latest].version
    case SetEnabled(of, _) => of in s.definitions && s.definitions[of].overrides.Some?
    case CreateTarget(t, target) => t !in s.targets
    case UpdateTarget(t, _, _) => t in s.targets && s.targets[t].managed.Api?
    case DeleteTarget(t) =>
      t in s.targets && s.targets[t].managed.Api? && forall id | id in s.assignments :: s.assignments[id].target != t
    case Create(id, t, d, policy) =>
      && id !in s.assignments && t in s.targets && s.targets[t].managed.Api?
      && Assignable(s.definitions, d, s.targets[t].engine) && PolicyFits(policy, s.definitions[d].timeout)
      && !ProbeTaken(s, t, s.definitions[d])
    case Update(id, d, policy) =>
      && Mine(s, id) && Assignable(s.definitions, d, s.targets[s.assignments[id].target].engine)
      && s.definitions[d].name == s.definitions[s.assignments[id].definition].name
      && s.definitions[d].engine == s.definitions[s.assignments[id].definition].engine
      && PolicyFits(policy, s.definitions[d].timeout)
      && (d != s.assignments[id].definition || policy != s.assignments[id].policy)
    case Approve(id) =>
      && Mine(s, id) && (s.assignments[id].state.Draft? || s.assignments[id].state.Rejected?)
      && Assignable(s.definitions, s.assignments[id].definition, s.targets[s.assignments[id].target].engine)
      && (s.assignments[id].policy.enabled ==> !OtherInterval(s, id))
    case Reject(id) => Mine(s, id) && s.assignments[id].state.Draft?
    case Delete(id) => Mine(s, id)
    case ApplyFile(t, _, _, wants, created) =>
      t in s.targets && s.targets[t].managed.Config? && WantsFit(wants) && CreatedFits(s, t, wants, created)
    case List(pid) =>
      pid !in s.checks && forall id | id in s.assignments ::
        s.assignments[id].target in s.targets && s.assignments[id].definition in s.definitions
    case Mark(pid, id, answer) => pid in s.checks && id in s.checks[pid] && RunsAs(answer, s.checks[pid][id].view)
    case EndCheck(pid) => pid in s.checks
  }

  /** The assignment is in the render. */
  predicate Rendered(s: State, id: Id)
    requires id in s.assignments
  {
    var a := s.assignments[id];
    && a.target in s.targets && a.definition in s.definitions
    && a.policy.enabled && IsApproved(a.state) && s.targets[a.target].active && s.definitions[a.definition].enabled
  }

  /** An approved assignment back to draft, when its target's connection changed. */
  function Reset(a: Assignment, now: Stamp): Assignment {
    if IsApproved(a.state) then a.(state := Draft, stamp := now) else a
  }

  /**
    An assignment of a config-managed target as the file leaves it: sent back to approved if it
    was applied and the target moved, whoever manages it, and, if the file does, with the file's
    policy or, not listed, switched off.
  */
  function Filed(a: Assignment, name: Name, wants: map<Name, Policy>, moved: bool, now: Stamp): Assignment {
    var b := if moved && a.state.Applied? then a.(state := Approved, stamp := now) else a;
    if b.managed.Api? then b
    else if name in wants then
      if b.policy == wants[name] && (b.state.Approved? || b.state.Applied?) then b
      else b.(policy := wants[name], state := Approved, stamp := now)
    else if b.policy.enabled then b.(policy := b.policy.(enabled := false), state := Approved, stamp := now)
    else b
  }

  function ResetAll(assignments: Assignments, t: TargetId, now: Stamp): Assignments {
    map id | id in assignments :: if assignments[id].target == t then Reset(assignments[id], now) else assignments[id]
  }

  function FileAll(s: State, t: TargetId, wants: map<Name, Policy>, created: map<Id, DefId>, moved: bool): Assignments
    requires t in s.targets && CreatedFits(s, t, wants, created)
  {
    map id | id in s.assignments.Keys + created.Keys ::
      if id in created
      then Assignment(t, Config, created[id], wants[s.definitions[created[id]].name], Approved, s.clock)
      else if s.assignments[id].target == t && s.assignments[id].definition in s.definitions
      then Filed(s.assignments[id], s.definitions[s.assignments[id].definition].name, wants, moved, s.clock)
      else s.assignments[id]
  }

  /** The approved assignments of the render, as they are listed for the check. */
  function Pending(s: State): map<Id, Listed> {
    map id | id in s.assignments && Rendered(s, id) && s.assignments[id].state.Approved? ::
      var a := s.assignments[id];
      Listed(a.stamp, ViewOf(a, s.targets[a.target], s.definitions[a.definition]))
  }

  function Next(s: State, step: Step): State
    requires Enabled(s, step)
  {
    var now := s.clock;
    match step
    case CreateDefinition(d, def) => s.(definitions := s.definitions[d := def])
    case AddVersion(d, latest, query, timeout) =>
      var def := s.definitions[latest];
      s.(definitions := s.definitions[d := def.(version := def.version + 1, query := query, timeout := timeout)])
    case SetEnabled(of, enabled) =>
      s.(definitions := map d | d in s.definitions ::
           if s.definitions[d].engine == s.definitions[of].engine && s.definitions[d].name == s.definitions[of].name
           then s.definitions[d].(enabled := enabled) else s.definitions[d])
    case CreateTarget(t, target) => s.(targets := s.targets[t := target])
    case UpdateTarget(t, connection, active) =>
      s.(targets := s.targets[t := s.targets[t].(connection := connection, active := active)], clock := now + 1,
         assignments := if connection == s.targets[t].connection then s.assignments
           else ResetAll(s.assignments, t, now))
    case DeleteTarget(t) => s.(targets := s.targets - {t})
    case Create(id, t, d, policy) =>
      s.(assignments := s.assignments[id := Assignment(t, Api, d, policy, Draft, now)], clock := now + 1)
    case Update(id, d, policy) =>
      s.(assignments := s.assignments[id :=
        s.assignments[id].(definition := d, policy := policy, state := Draft, stamp := now)],
         clock := now + 1)
    case Approve(id) =>
      var a := s.assignments[id];
      s.(assignments := s.assignments[id := a.(state := Approved, stamp := now)], clock := now + 1,
         covers := s.covers[id := Cover(a.definition, a.policy, s.targets[a.target].connection)])
    case Reject(id) =>
      s.(assignments := s.assignments[id := s.assignments[id].(state := Rejected, stamp := now)], clock := now + 1)
    case Delete(id) => s.(assignments := s.assignments - {id})
    case ApplyFile(t, connection, active, wants, created) =>
      s.(targets := s.targets[t := s.targets[t].(connection := connection, active := active)], clock := now + 1,
         assignments := FileAll(s, t, wants, created, connection != s.targets[t].connection))
    case List(pid) => s.(checks := s.checks[pid := Pending(s)])
    case Mark(pid, id, answer) =>
      if Marks(s, pid, id)
      then s.(assignments := s.assignments[id := s.assignments[id].(state := Applied, stamp := now)], clock := now + 1)
      else s
    case EndCheck(pid) => s.(checks := s.checks - {pid})
  }

  /** The check finds the row approved and as it was listed. */
  predicate Marks(s: State, pid: Pid, id: Id)
    requires pid in s.checks && id in s.checks[pid]
  {
    id in s.assignments && s.assignments[id].state.Approved? && s.assignments[id].stamp == s.checks[pid][id].stamp
  }

  ghost predicate Start(s: State) {
    && s.targets == map[] && s.assignments == map[] && s.checks == map[]
    && forall d | d in s.definitions :: s.definitions[d].overrides.None? && s.definitions[d].timeout.None?
  }

  ghost predicate Moves(s: State, t: State) {
    exists step :: Enabled(s, step) && t == Next(s, step)
  }

  ghost predicate Run(run: seq<State>) {
    && run != [] && Start(run[0])
    && forall i | 0 <= i < |run| - 1 :: Moves(run[i], run[i + 1])
  }

  // ------------------------------------------------------------ what every step keeps

  ghost predicate RefsOk(ds: Definitions, ts: Targets, a: Assignments) {
    forall id | id in a :: a[id].target in ts && a[id].definition in ds
  }

  /** An assignment is managed as its target is. */
  ghost predicate ManagersOk(ts: Targets, a: Assignments) {
    forall id | id in a && a[id].target in ts :: a[id].managed == ts[a[id].target].managed
  }

  /** Every version of a definition overrides the same probe. */
  ghost predicate VersionsOk(ds: Definitions) {
    forall d, e | d in ds && e in ds && ds[d].engine == ds[e].engine && ds[d].name == ds[e].name ::
      ds[d].overrides == ds[e].overrides
  }

  /** The file assigns built-in definitions, and the API assigns nothing to the file's targets. */
  ghost predicate BuiltinOk(ds: Definitions, ts: Targets, a: Assignments) {
    forall id | id in a && a[id].target in ts && a[id].definition in ds && ts[a[id].target].managed.Config? ::
      ds[a[id].definition].overrides.None? && ds[a[id].definition].timeout.None?
  }

  /** A target runs each probe once. */
  ghost predicate ProbesOk(ds: Definitions, a: Assignments) {
    forall i, j | i in a && j in a && i != j && a[i].target == a[j].target && a[i].definition in ds
      && a[j].definition in ds ::
      ProbeOf(ds[a[i].definition]) != ProbeOf(ds[a[j].definition])
  }

  predicate On(a: Assignment) {
    a.policy.enabled && IsApproved(a.state)
  }

  /** A target's enabled approved assignments share one interval. */
  ghost predicate IntervalsOk(a: Assignments) {
    forall i, j | i in a && j in a && a[i].target == a[j].target && On(a[i]) && On(a[j]) ::
      a[i].policy.interval == a[j].policy.interval
  }

  ghost predicate PoliciesOk(ds: Definitions, a: Assignments) {
    forall id | id in a && a[id].definition in ds :: PolicyFits(a[id].policy, ds[a[id].definition].timeout)
  }

  /** An approved assignment of an API-managed target is what its latest approval covers. */
  ghost predicate CoversOk(ts: Targets, a: Assignments, covers: map<Id, Cover>) {
    forall id | id in a && a[id].target in ts && ts[a[id].target].managed.Api? && IsApproved(a[id].state) ::
      id in covers && covers[id] == Cover(a[id].definition, a[id].policy, ts[a[id].target].connection)
  }

  /** Stamps are of the past. */
  ghost predicate StampsOk(a: Assignments, clock: Stamp) {
    forall id | id in a :: a[id].stamp < clock
  }

  ghost predicate ListStampsOk(checks: map<Pid, map<Id, Listed>>, clock: Stamp) {
    forall pid | pid in checks :: ListedBefore(checks[pid], clock)
  }

  ghost predicate ListedBefore(rows: map<Id, Listed>, clock: Stamp) {
    forall id | id in rows :: rows[id].stamp < clock
  }

  /** The views are of the same target, interval and probe. */
  predicate SameWork(v: View, w: View) {
    v.target == w.target && v.interval == w.interval && v.probe == w.probe
  }

  /**
    A listed assignment that still has its stamp is approved and runs what it was listed with;
    on an API-managed target it reads as it was listed in every respect.
  */
  ghost predicate ListedOk(ds: Definitions, ts: Targets, a: Assignments, id: Id, l: Listed) {
    id in a && a[id].stamp == l.stamp && a[id].target in ts && a[id].definition in ds ==>
      && a[id].state.Approved?
      && SameWork(ViewOf(a[id], ts[a[id].target], ds[a[id].definition]), l.view)
      && (ts[a[id].target].managed.Api? ==> ViewOf(a[id], ts[a[id].target], ds[a[id].definition]) == l.view)
  }

  ghost predicate ChecksOk(ds: Definitions, ts: Targets, a: Assignments, checks: map<Pid, map<Id, Listed>>) {
    forall pid | pid in checks :: forall id | id in checks[pid] :: ListedOk(ds, ts, a, id, checks[pid][id])
  }

  ghost predicate Inv(s: State) {
    && RefsOk(s.definitions, s.targets, s.assignments) && ManagersOk(s.targets, s.assignments)
      && VersionsOk(s.definitions)
    && BuiltinOk(s.definitions, s.targets, s.assignments) && ProbesOk(s.definitions, s.assignments)
    && IntervalsOk(s.assignments) && PoliciesOk(s.definitions, s.assignments)
    && CoversOk(s.targets, s.assignments, s.covers)
    && StampsOk(s.assignments, s.clock) && ListStampsOk(s.checks, s.clock)
    && ChecksOk(s.definitions, s.targets, s.assignments, s.checks)
  }
}
