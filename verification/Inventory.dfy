/**
  The inventory's rows, an environment's inventory file, and the audit records that say how the
  one was brought in line with the other.

  A row is keyed by the names it is unique by; a telemetry source, which has none, by its ID.
*/
module Inventory {
  import opened Basics
  import opened InventoryTypes

  type Time = nat

  datatype Status = Active | Disabled | Other(code: nat)

  datatype Key =
    | EnvKey(env: Name)
    | AppKey(env: Name, app: Name)
    | ComponentKey(env: Name, app: Name, name: Name, kind: Name)
    | SourceKey(env: Name, id: nat)
    | TargetKey(env: Name, target: Name)
    | AssignKey(env: Name, target: Name, probe: Name)

  datatype Kind = Environments | Applications | Components | Sources | Targets | Assignments

  function KindOf(k: Key): Kind {
    match k
    case EnvKey(_) => Environments
    case AppKey(_, _) => Applications
    case ComponentKey(_, _, _, _) => Components
    case SourceKey(_, _) => Sources
    case TargetKey(_, _) => Targets
    case AssignKey(_, _, _) => Assignments
  }

  datatype EnvDetails = EnvDetails(name: Name, kind: Name, description: Name, labels: Name)
  datatype AppDetails = AppDetails(platform: Name, ownerTeam: Name, criticality: Name)
  datatype ComponentDetails = ComponentDetails(runtimeName: Name, labels: Name)
  datatype SourceConfig = SourceConfig(applicationName: Name, settings: Name)
  /** What a telemetry source is matched by. */
  datatype SourceName = SourceName(app: Name, kind: Name, mode: Name, applicationName: Name)

  datatype Row =
    | EnvRow(managed: Manager, details: EnvDetails, status: Status)
    | AppRow(managed: Manager, app: AppDetails, status: Status)
    | ComponentRow(managed: Manager, component: ComponentDetails)
    | SourceRow(managed: Manager, name: SourceName, config: SourceConfig, status: Status)
    | TargetRow(managed: Manager, engine: Name, connection: Connection, labels: Name, status: Status)
    | AssignRow(managed: Manager, definition: Name, policy: Policy, state: Approval, approvedAt: Option<Time>)

  type Rows = map<Key, Row>

  function KindOfRow(r: Row): Kind {
    match r
    case EnvRow(_, _, _) => Environments
    case AppRow(_, _, _) => Applications
    case ComponentRow(_, _) => Components
    case SourceRow(_, _, _, _) => Sources
    case TargetRow(_, _, _, _, _) => Targets
    case AssignRow(_, _, _, _, _) => Assignments
  }

  function At(rows: Rows, k: Key): Option<Row> {
    if k in rows then Some(rows[k]) else None
  }

  /** Rows are in the table of their key, a target's assignments are managed as the target is. */
  ghost predicate RowsOk(rows: Rows) {
    && (forall k | k in rows :: KindOfRow(rows[k]) == KindOf(k))
    && (forall k | k in rows && k.AssignKey? ::
          TargetKey(k.env, k.target) in rows && rows[TargetKey(k.env, k.target)].managed == rows[k].managed)
    && (forall k | k in rows && k.SourceKey? :: rows[k].name.applicationName == rows[k].config.applicationName)
  }

  // ------------------------------------------------------------ the file

  datatype FileComponent = FileComponent(name: Name, kind: Name, details: ComponentDetails)
  datatype FileSource = FileSource(kind: Name, mode: Name, config: SourceConfig, status: Status)
  datatype FileApplication = FileApplication(
    name: Name, details: AppDetails, status: Status, components: seq<FileComponent>, sources: seq<FileSource>)
  datatype FileProbe = FileProbe(name: Name, policy: Policy)
  datatype FileTarget = FileTarget(
    name: Name, engine: Name, connection: Connection, labels: Name, status: Status, probes: seq<FileProbe>)
  datatype File = File(
    slug: Name, details: EnvDetails, status: Status, applications: seq<FileApplication>, targets: seq<FileTarget>)

  function NameOf(app: Name, s: FileSource): SourceName {
    SourceName(app, s.kind, s.mode, s.config.applicationName)
  }

  /** What the file's checker made sure of: no name is listed twice, and no two targets are for one database. */
  ghost predicate Parsed(f: File) {
    && (forall i, j | 0 <= i < j < |f.applications| :: f.applications[i].name != f.applications[j].name)
    && (forall i, j | 0 <= i < j < |f.targets| :: f.targets[i].name != f.targets[j].name)
    && (forall a | a in f.applications :: ParsedApplication(a))
    && (forall t | t in f.targets :: ParsedTarget(t))
    && OneEach(SourceNames(f)) && DatabasesApart(f)
  }

  /** The sources of one application name belong to one application. */
  ghost predicate OneEach(names: set<SourceName>) {
    forall n, m | n in names && m in names && n.applicationName == m.applicationName :: n.app == m.app
  }

  /** One database is one target. */
  ghost predicate DatabasesApart(f: File) {
    forall t, u | t in f.targets && u in f.targets && t.name != u.name ::
      (t.engine, t.connection.host, t.connection.port, t.connection.database)
        != (u.engine, u.connection.host, u.connection.port, u.connection.database)
  }

  ghost predicate ParsedTarget(t: FileTarget) {
    forall i, j | 0 <= i < j < |t.probes| :: t.probes[i].name != t.probes[j].name
  }

  ghost predicate ParsedApplication(a: FileApplication) {
    && (forall i, j | 0 <= i < j < |a.components| ::
          (a.components[i].name, a.components[i].kind) != (a.components[j].name, a.components[j].kind))
    && (forall i, j | 0 <= i < j < |a.sources| :: NameOf(a.name, a.sources[i]) != NameOf(a.name, a.sources[j]))
  }

  // ------------------------------------------------------------ what the file wants of a row

  datatype Want =
    | WantEnv(details: EnvDetails, status: Status)
    | WantApp(app: AppDetails, status: Status)
    | WantComponent(component: ComponentDetails)
    | WantSource(name: SourceName, config: SourceConfig, status: Status)
    | WantTarget(engine: Name, connection: Connection, labels: Name, status: Status)
    | WantProbe(policy: Policy)

  function KindOfWant(w: Want): Kind {
    match w
    case WantEnv(_, _) => Environments
    case WantApp(_, _) => Applications
    case WantComponent(_) => Components
    case WantSource(_, _, _) => Sources
    case WantTarget(_, _, _, _) => Targets
    case WantProbe(_) => Assignments
  }

  predicate ApprovedByFile(state: Approval) {
    state.Approved? || state.Applied?
  }

  /** The row holds the file's fields; an assignment is also approved. */
  predicate Meets(r: Row, w: Want) {
    match (r, w)
    case (EnvRow(_, d, s), WantEnv(details, status)) => d == details && s == status
    case (AppRow(_, d, s), WantApp(details, status)) => d == details && s == status
    case (ComponentRow(_, d), WantComponent(details)) => d == details
    case (SourceRow(_, n, c, s), WantSource(name, config, status)) => n == name && c == config && s == status
    case (TargetRow(_, e, c, l, s), WantTarget(engine, connection, labels, status)) =>
      e == engine && c == connection && l == labels && s == status
    case (AssignRow(_, _, p, state, _), WantProbe(policy)) => p == policy && ApprovedByFile(state)
    case _ => false
  }

  /** A config-managed row is there and holds the file's fields. */
  predicate Holds(rows: Rows, k: Key, w: Want) {
    k in rows && rows[k].managed.Config? && Meets(rows[k], w)
  }

  ghost predicate AllHold(rows: Rows, wants: map<Key, Want>) {
    forall k | k in wants :: Holds(rows, k, wants[k])
  }

  /** The row is switched off, as one the file no longer lists is. */
  predicate Off(r: Row) {
    match r
    case EnvRow(_, _, _) => true
    case ComponentRow(_, _) => true
    case AppRow(_, _, s) => s.Disabled?
    case SourceRow(_, _, _, s) => s.Disabled?
    case TargetRow(_, _, _, _, s) => s.Disabled?
    case AssignRow(_, _, p, _, _) => !p.enabled
  }

  /** The row with the file's fields; one that has them already stays as it is. */
  function Updated(r: Row, w: Want, now: Time): Row {
    if Meets(r, w) then r
    else match (r, w)
      case (EnvRow(m, _, _), WantEnv(d, s)) => EnvRow(m, d, s)
      case (AppRow(m, _, _), WantApp(d, s)) => AppRow(m, d, s)
      case (ComponentRow(m, _), WantComponent(d)) => ComponentRow(m, d)
      case (SourceRow(m, n, _, _), WantSource(_, c, s)) => SourceRow(m, n, c, s)
      case (TargetRow(m, e, _, _, _), WantTarget(_, c, l, s)) => TargetRow(m, e, c, l, s)
      case (AssignRow(m, d, _, _, _), WantProbe(p)) => AssignRow(m, d, p, Approved, Some(now))
      case _ => r
  }

  /** A new row as the file wants it; an assignment pins the given definition. */
  function Made(w: Want, definition: Name, now: Time): Row {
    match w
    case WantEnv(d, s) => EnvRow(Config, d, s)
    case WantApp(d, s) => AppRow(Config, d, s)
    case WantComponent(d) => ComponentRow(Config, d)
    case WantSource(n, c, s) => SourceRow(Config, n, c, s)
    case WantTarget(e, c, l, s) => TargetRow(Config, e, c, l, s)
    case WantProbe(p) => AssignRow(Config, definition, p, Approved, Some(now))
  }

  /** The row switched off; an assignment's change is approved with it. */
  function Retired(r: Row, now: Time): Row {
    match r
    case AppRow(m, d, _) => AppRow(m, d, Disabled)
    case SourceRow(m, n, c, _) => SourceRow(m, n, c, Disabled)
    case TargetRow(m, e, c, l, _) => TargetRow(m, e, c, l, Disabled)
    case AssignRow(m, d, p, _, _) => AssignRow(m, d, p.(enabled := false), Approved, Some(now))
    case _ => r
  }

  // ------------------------------------------------------------ listed keys

  function EnvWant(f: File): Want { WantEnv(f.details, f.status) }
  function AppWant(a: FileApplication): Want { WantApp(a.details, a.status) }
  function SourceWant(app: Name, s: FileSource): Want { WantSource(NameOf(app, s), s.config, s.status) }
  function TargetWant(t: FileTarget): Want { WantTarget(t.engine, t.connection, t.labels, t.status) }

  function AppKeys(f: File): set<Key> {
    set a | a in f.applications :: AppKey(f.slug, a.name)
  }

  function ComponentKeys(f: File): set<Key> {
    set a, c | a in f.applications && c in a.components :: ComponentKey(f.slug, a.name, c.name, c.kind)
  }

  function SourceNames(f: File): set<SourceName> {
    set a, s | a in f.applications && s in a.sources :: NameOf(a.name, s)
  }

  function TargetKeys(f: File): set<Key> {
    set t | t in f.targets :: TargetKey(f.slug, t.name)
  }

  function ProbeKeys(f: File): set<Key> {
    set t, p | t in f.targets && p in t.probes :: AssignKey(f.slug, t.name, p.name)
  }

  /** The source the file's name is matched to: the last of that name. */
  ghost predicate Matches(rows: Rows, slug: Name, name: SourceName, id: nat) {
    && SourceKey(slug, id) in rows && rows[SourceKey(slug, id)].SourceRow? && rows[SourceKey(slug, id)].name == name
    && forall k | k in rows && k.SourceKey? && k.env == slug && rows[k].SourceRow? && rows[k].name == name :: k.id <= id
  }

  /** The source row claims an application name for an application other than app. */
  predicate Claims(r: Row, app: Name, applicationName: Name) {
    r.SourceRow? && r.config.applicationName == applicationName && r.name.app != app
      && (r.managed.Api? || r.status.Active?)
  }

  /** No other application of the environment claims the application name. */
  predicate Unclaimed(rows: Rows, slug: Name, app: Name, applicationName: Name) {
    forall k | k in rows && k.SourceKey? && k.env == slug :: !Claims(rows[k], app, applicationName)
  }

  // ------------------------------------------------------------ settled

  /** Every config-managed row of the kind that is not listed is switched off. */
  ghost predicate Cleared(rows: Rows, slug: Name, kind: Kind, listed: set<Key>) {
    forall k | k in rows && k.env == slug && KindOf(k) == kind && k !in listed ::
      rows[k].managed.Config? ==> Off(rows[k])
  }

  /** The wanted rows of the kind hold their fields, and the others are switched off. */
  ghost predicate KindSettled(rows: Rows, slug: Name, kind: Kind, wants: map<Key, Want>) {
    AllHold(rows, wants) && Cleared(rows, slug, kind, wants.Keys)
  }

  ghost predicate AppsHold(rows: Rows, f: File) {
    forall a | a in f.applications :: Holds(rows, AppKey(f.slug, a.name), AppWant(a))
  }

  ghost predicate TargetsHold(rows: Rows, f: File) {
    forall t | t in f.targets :: Holds(rows, TargetKey(f.slug, t.name), TargetWant(t))
  }

  ghost predicate ProbesHold(rows: Rows, f: File) {
    forall t | t in f.targets :: forall p | p in t.probes ::
      Holds(rows, AssignKey(f.slug, t.name, p.name), WantProbe(p.policy))
  }

  ghost predicate AppsSettled(rows: Rows, f: File) {
    && AppsHold(rows, f)
    && Cleared(rows, f.slug, Applications, AppKeys(f))
  }

  ghost predicate ComponentsSettled(rows: Rows, f: File) {
    forall a | a in f.applications :: forall c | c in a.components ::
      Holds(rows, ComponentKey(f.slug, a.name, c.name, c.kind), WantComponent(c.details))
  }

  ghost predicate SourceSettled(rows: Rows, slug: Name, app: Name, s: FileSource) {
    && (exists id :: Matches(rows, slug, NameOf(app, s), id) && Holds(rows, SourceKey(slug, id), SourceWant(app, s)))
    && (s.status.Active? ==> Unclaimed(rows, slug, app, s.config.applicationName))
  }

  ghost predicate SourcesSettled(rows: Rows, f: File) {
    && (forall a | a in f.applications :: forall s | s in a.sources :: SourceSettled(rows, f.slug, a.name, s))
    && SourcesCleared(rows, f.slug, SourceNames(f))
  }

  ghost predicate SourcesCleared(rows: Rows, slug: Name, names: set<SourceName>) {
    forall k | k in rows && k.env == slug && k.SourceKey? && rows[k].SourceRow? && rows[k].name !in names ::
      rows[k].managed.Config? ==> Off(rows[k])
  }

  ghost predicate TargetsSettled(rows: Rows, f: File) {
    && TargetsHold(rows, f)
    && Cleared(rows, f.slug, Targets, TargetKeys(f))
  }

  ghost predicate ProbesSettled(rows: Rows, f: File) {
    && ProbesHold(rows, f)
    && Cleared(rows, f.slug, Assignments, ProbeKeys(f))
  }

  /**
    The rows are as the file wants them: every listed row holds its fields and every
    config-managed one of the environment it does not list is switched off.
  */
  ghost predicate Settled(rows: Rows, f: File) {
    && Holds(rows, EnvKey(f.slug), EnvWant(f))
    && AppsSettled(rows, f) && ComponentsSettled(rows, f) && SourcesSettled(rows, f)
    && TargetsSettled(rows, f) && ProbesSettled(rows, f)
  }

  // ------------------------------------------------------------ audit records

  /** One change: the row before it, none for a creation, and after it. */
  datatype Record = Record(key: Key, before: Option<Row>, after: Row)

  /** The rows after the changes. */
  function Replay(rows: Rows, log: seq<Record>): Rows {
    if log == [] then rows
    else Replay(rows, log[..|log| - 1])[log[|log| - 1].key := log[|log| - 1].after]
  }

  /** Every record shows the row as the records before it left it, and a change of it. */
  ghost predicate Chained(rows: Rows, log: seq<Record>) {
    log == [] ||
    (var n := |log| - 1;
     && Chained(rows, log[..n]) && log[n].before == At(Replay(rows, log[..n]), log[n].key)
     && log[n].before != Some(log[n].after))
  }

  /** Only rows of the environment that the file manages change, and it manages what it creates. */
  predicate Owned(r: Record, slug: Name) {
    r.key.env == slug && r.after.managed.Config? && (r.before.Some? ==> r.before.value.managed.Config?)
  }

  lemma {:induction false} ReplayPush(rows: Rows, log: seq<Record>, r: Record)
    ensures Replay(rows, log + [r]) == Replay(rows, log)[r.key := r.after]
    ensures Chained(rows, log) && r.before == At(Replay(rows, log), r.key) && r.before != Some(r.after) ==>
      Chained(rows, log + [r])
  {
    assert (log + [r])[..|log|] == log;
  }

  /** What the file may not change is as it was, and nothing is lost. */
  ghost predicate Respects(before: Rows, after: Rows, slug: Name) {
    && (forall k | k in before :: k in after && after[k].managed == before[k].managed)
    && (forall k | k in before && (before[k].managed.Api? || k.env != slug) :: after[k] == before[k])
    && (forall k | k in after && k !in before :: k.env == slug && after[k].managed.Config?)
  }

  lemma {:induction false} OwnedRespects(rows: Rows, log: seq<Record>, slug: Name)
    requires Chained(rows, log) && forall r | r in log :: Owned(r, slug)
    ensures Respects(rows, Replay(rows, log), slug)
  {
    if log != [] {
      var n := |log| - 1;
      OwnedRespects(rows, log[..n], slug);
      assert log[n] in log;
    }
  }
}
