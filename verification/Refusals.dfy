/**
  What in an environment's rows refuses its inventory file: what the API manages, names and
  databases that are held already, and probe definitions that are not to be had.
*/
module Refusals {
  import opened Basics
  import opened InventoryTypes
  import opened Inventory

  datatype Definition = Definition(id: Name, enabled: bool)
  type Definitions = map<(Name, Name), Definition>

  // ------------------------------------------------------------ rows the API manages

  predicate Foreign(rows: Rows, k: Key) {
    k in rows && rows[k].managed.Api?
  }

  ghost predicate AnyForeign(rows: Rows, keys: set<Key>) {
    exists k | k in keys :: Foreign(rows, k)
  }

  lemma {:induction false} ForeignSame(before: Rows, after: Rows, keys: set<Key>)
    requires forall k | k in keys :: At(after, k) == At(before, k)
    ensures AnyForeign(before, keys) <==> AnyForeign(after, keys)
  {
    forall k | k in keys ensures Foreign(before, k) <==> Foreign(after, k) {
      assert At(after, k) == At(before, k);
    }
  }

  // ------------------------------------------------------------ sources

  /** A source the API manages claims the application name for another application. */
  ghost predicate ClaimedByApi(rows: Rows, slug: Name, n: SourceName) {
    exists k | k in rows && k.SourceKey? && k.env == slug ::
      rows[k].managed.Api? && Claims(rows[k], n.app, n.applicationName)
  }

  /** The application name is claimed by another application, or the API manages the source the name is matched to. */
  ghost predicate SourceBlocked(rows: Rows, slug: Name, n: SourceName, w: Want) {
    || (w.WantSource? && w.status.Active? && ClaimedByApi(rows, slug, n))
    || (exists id :: Matches(rows, slug, n, id) && Foreign(rows, SourceKey(slug, id)))
  }

  ghost predicate SourcesBlocked(rows: Rows, slug: Name, wants: map<SourceName, Want>) {
    exists n | n in wants :: SourceBlocked(rows, slug, n, wants[n])
  }

  lemma {:induction false} MatchesSame(before: Rows, after: Rows, slug: Name, n: SourceName, id: nat)
    requires forall k: Key | k.SourceKey? :: At(after, k) == At(before, k)
    ensures Matches(before, slug, n, id) <==> Matches(after, slug, n, id)
  {
    forall k: Key | k.SourceKey? ensures k in before <==> k in after
      ensures k in before ==> after[k] == before[k]
    {
      assert At(after, k) == At(before, k);
    }
  }

  lemma {:induction false} ClaimedSame(before: Rows, after: Rows, slug: Name, n: SourceName)
    requires forall k: Key | k.SourceKey? :: At(after, k) == At(before, k)
    requires ClaimedByApi(before, slug, n)
    ensures ClaimedByApi(after, slug, n)
  {
    var k :| k in before && k.SourceKey? && k.env == slug
      && before[k].managed.Api? && Claims(before[k], n.app, n.applicationName);
    assert At(after, k) == At(before, k);
  }

  lemma {:induction false} SourceBlockedSame(before: Rows, after: Rows, slug: Name, n: SourceName, w: Want)
    requires forall k: Key | k.SourceKey? :: At(after, k) == At(before, k)
    requires SourceBlocked(before, slug, n, w)
    ensures SourceBlocked(after, slug, n, w)
  {
    if id :| Matches(before, slug, n, id) && Foreign(before, SourceKey(slug, id)) {
      MatchesSame(before, after, slug, n, id);
      assert At(after, SourceKey(slug, id)) == At(before, SourceKey(slug, id));
    } else {
      ClaimedSame(before, after, slug, n);
    }
  }

  lemma {:induction false} SourcesBlockedSame(before: Rows, after: Rows, slug: Name, wants: map<SourceName, Want>)
    requires forall k: Key | k.SourceKey? :: At(after, k) == At(before, k)
    ensures SourcesBlocked(before, slug, wants) <==> SourcesBlocked(after, slug, wants)
  {
    if n :| n in wants && SourceBlocked(before, slug, n, wants[n]) {
      SourceBlockedSame(before, after, slug, n, wants[n]);
    }
    if n :| n in wants && SourceBlocked(after, slug, n, wants[n]) {
      SourceBlockedSame(after, before, slug, n, wants[n]);
    }
  }

  // ------------------------------------------------------------ targets

  /** The row is of another target, for the wanted database of the wanted server. */
  predicate Rival(rows: Rows, k: Key, w: Want, j: Key) {
    && w.WantTarget? && j in rows && j != k && j.TargetKey? && j.env == k.env && rows[j].TargetRow?
    && SameDatabase(rows[j].engine, rows[j].connection, w.engine, w.connection)
  }

  predicate SameDatabase(engine: Name, c: Connection, other: Name, d: Connection) {
    engine == other && c.host == d.host && c.port == d.port && c.database == d.database
  }

  /** The file's targets are for different databases. */
  ghost predicate Apart(wants: map<Key, Want>) {
    forall k, j | k in wants && j in wants && k != j && wants[k].WantTarget? && wants[j].WantTarget? ::
      !SameDatabase(wants[k].engine, wants[k].connection, wants[j].engine, wants[j].connection)
  }

  /** The wanted targets, each once. */
  ghost predicate Lists(order: seq<Key>, wants: map<Key, Want>) {
    && (forall i | 0 <= i < |order| :: order[i] in wants && order[i] !in order[..i])
    && (forall k | k in wants :: k in order)
  }

  /** The API manages the target, it is of another engine, or one that is not settled by then holds its database. */
  ghost predicate TargetBlocked(rows: Rows, k: Key, w: Want, settled: seq<Key>) {
    || Foreign(rows, k)
    || (w.WantTarget? && k in rows && rows[k].TargetRow? && rows[k].engine != w.engine)
    || (!Holds(rows, k, w) && exists j :: j !in settled && Rival(rows, k, w, j))
  }

  ghost predicate TargetsBlocked(rows: Rows, wants: map<Key, Want>, order: seq<Key>) {
    exists i | 0 <= i < |order| && order[i] in wants :: TargetBlocked(rows, order[i], wants[order[i]], order[..i])
  }

  lemma {:induction false} RivalSame(before: Rows, after: Rows, k: Key, w: Want, j: Key)
    requires At(after, j) == At(before, j)
    ensures Rival(before, k, w, j) <==> Rival(after, k, w, j)
  {
  }

  lemma {:induction false} TargetBlockedSame(before: Rows, after: Rows, k: Key, w: Want, settled: seq<Key>)
    requires At(after, k) == At(before, k)
    requires forall j :: Rival(before, k, w, j) <==> Rival(after, k, w, j)
    ensures TargetBlocked(before, k, w, settled) <==> TargetBlocked(after, k, w, settled)
  {
  }

  /** Of the other targets, only what they are for matters. */
  lemma {:induction false} TargetsBlockedSame(before: Rows, after: Rows, wants: map<Key, Want>, order: seq<Key>)
    requires forall k | k in wants :: At(after, k) == At(before, k)
    requires forall k, j | k in wants :: Rival(before, k, wants[k], j) <==> Rival(after, k, wants[k], j)
    ensures TargetsBlocked(before, wants, order) <==> TargetsBlocked(after, wants, order)
  {
    forall i | 0 <= i < |order| && order[i] in wants
      ensures TargetBlocked(before, order[i], wants[order[i]], order[..i]) <==>
        TargetBlocked(after, order[i], wants[order[i]], order[..i])
    {
      TargetBlockedSame(before, after, order[i], wants[order[i]], order[..i]);
    }
  }

  // ------------------------------------------------------------ assignments

  /** There is an enabled definition of the probe for the engine. */
  predicate Definable(definitions: Definitions, engine: Name, probe: Name) {
    (engine, probe) in definitions && definitions[(engine, probe)].enabled
  }

  /** The API manages the assignment, or it is not there and the probe cannot be assigned. */
  predicate ProbeBlocked(rows: Rows, k: Key, engine: Name, definitions: Definitions) {
    Foreign(rows, k) || (k.AssignKey? && k !in rows && !Definable(definitions, engine, k.probe))
  }

  /** The engine the file wants of an assignment's target. */
  function EngineWanted(targets: map<Key, Want>, k: Key): Name
    requires k.AssignKey?
  {
    var t := TargetKey(k.env, k.target);
    if t in targets && targets[t].WantTarget? then targets[t].engine else 0
  }

  ghost predicate ProbesBlocked(rows: Rows, probes: set<Key>, targets: map<Key, Want>, definitions: Definitions) {
    exists k | k in probes && k.AssignKey? :: ProbeBlocked(rows, k, EngineWanted(targets, k), definitions)
  }

  /** The same rows are there, managed as they were. */
  ghost predicate SameOwners(before: Rows, after: Rows, kind: Kind) {
    forall k | KindOf(k) == kind ::
      (k in before <==> k in after) && (k in before && k in after ==> before[k].managed == after[k].managed)
  }

  lemma {:induction false} SameOwnersTwice(a: Rows, b: Rows, c: Rows, kind: Kind)
    requires SameOwners(a, b, kind) && SameOwners(b, c, kind)
    ensures SameOwners(a, c, kind)
  {
    forall k | KindOf(k) == kind
      ensures (k in a <==> k in c) && (k in a && k in c ==> a[k].managed == c[k].managed)
    {
      assert k in a <==> k in b;
    }
  }

  lemma {:induction false} ProbesBlockedSame(
      before: Rows, after: Rows, probes: set<Key>, targets: map<Key, Want>, definitions: Definitions)
    requires SameOwners(before, after, Assignments)
    ensures ProbesBlocked(before, probes, targets, definitions) <==> ProbesBlocked(after, probes, targets, definitions)
  {
    forall k: Key | k in probes && k.AssignKey?
      ensures var e := EngineWanted(targets, k);
        ProbeBlocked(before, k, e, definitions) <==> ProbeBlocked(after, k, e, definitions)
    {
      assert KindOf(k) == Assignments;
    }
  }
}
