/**
  Applying an environment's inventory file: one transaction that brings the rows in line with
  the file, phase by phase, and writes one audit record for each change.
*/
module ApplyFile {
  import opened Basics
  import opened InventoryTypes
  import opened Inventory
  import opened Refusals

  /** Rows of other kinds are as they were. */
  ghost predicate OnlyKinds(before: Rows, after: Rows, kinds: set<Kind>) {
    forall k :: KindOf(k) !in kinds ==> At(after, k) == At(before, k)
  }

  /** Rows under other keys are as they were. */
  ghost predicate OnlyKeys(before: Rows, after: Rows, keys: set<Key>) {
    forall k :: k !in keys ==> At(after, k) == At(before, k)
  }

  /** The keys of the environment's rows of a kind. */
  function KeysOf(rows: Rows, slug: Name, kind: Kind): set<Key> {
    set k | k in rows && k.env == slug && KindOf(k) == kind
  }

  /** The wanted rows are of one kind, and of the environment. */
  ghost predicate Fits(wants: map<Key, Want>, slug: Name, kind: Kind) {
    forall k | k in wants :: k.env == slug && KindOf(k) == kind == KindOfWant(wants[k])
  }

  lemma {:induction false} UpdatedMeets(r: Row, w: Want, now: Time)
    requires KindOfRow(r) == KindOfWant(w) && (r.TargetRow? ==> r.engine == w.engine)
      && (r.SourceRow? ==> r.name == w.name)
    ensures Meets(Updated(r, w, now), w) && Updated(r, w, now).managed == r.managed
    ensures KindOfRow(Updated(r, w, now)) == KindOfRow(r)
    ensures Meets(r, w) <==> Updated(r, w, now) == r
  {
  }

  // ------------------------------------------------------------ the transaction

  class Applier {
    const slug: Name
    const now: Time
    const definitions: Definitions
    ghost const start: Rows
    var rows: Rows
    var log: seq<Record>
    var changes: nat

    /** The rows are the ones at the start with the recorded changes made, each of them the file's to make. */
    ghost predicate Valid()
      reads this
    {
      && RowsOk(rows) && changes == |log|
      && Chained(start, log) && rows == Replay(start, log)
      && forall r | r in log :: Owned(r, slug)
    }

    constructor (slug: Name, now: Time, definitions: Definitions, rows: Rows)
      requires RowsOk(rows)
      ensures Valid() && this.rows == rows == start && log == [] && this.slug == slug && this.definitions == definitions
    {
      this.slug, this.now, this.definitions, this.start := slug, now, definitions, rows;
      this.rows, this.log, this.changes := rows, [], 0;
    }

    /** Writes a row and audits the change. */
    method Write(k: Key, row: Row)
      requires Valid() && k.env == slug && row.managed.Config? && KindOf(k) == KindOfRow(row)
      requires k in rows ==> rows[k].managed.Config? && rows[k] != row
      requires k.AssignKey? ==> TargetKey(k.env, k.target) in rows && rows[TargetKey(k.env, k.target)].managed.Config?
      requires k.SourceKey? ==> row.name.applicationName == row.config.applicationName
      modifies this
      ensures Valid() && rows == old(rows)[k := row] && log == old(log) + [Record(k, At(old(rows), k), row)]
    {
      var record := Record(k, At(rows, k), row);
      ReplayPush(start, log, record);
      rows, log, changes := rows[k := row], log + [record], changes + 1;
    }

    /** Brings an environment, an application or a component in line with the file; refuses what the API manages. */
    method Settle(k: Key, w: Want) returns (ok: bool)
      requires Valid() && k.env == slug && KindOf(k) == KindOfWant(w)
        && KindOf(k) in {Environments, Applications, Components}
      modifies this
      ensures Valid()
      ensures ok <==> !Foreign(old(rows), k)
      ensures ok ==> Holds(rows, k, w)
      ensures OnlyKeys(old(rows), rows, {k})
      ensures Holds(old(rows), k, w) ==> rows == old(rows) && log == old(log)
    {
      if k !in rows {
        Write(k, Made(w, 0, now));
        return true;
      }
      if rows[k].managed.Api? { return false; }
      UpdatedMeets(rows[k], w, now);
      if Updated(rows[k], w, now) != rows[k] { Write(k, Updated(rows[k], w, now)); }
      ok := true;
    }

    /** Settles all of them, in any order. */
    method SettleAll(wants: map<Key, Want>) returns (ok: bool)
      requires Valid() && (Fits(wants, slug, Applications) || Fits(wants, slug, Components))
      modifies this
      ensures Valid()
      ensures ok <==> !AnyForeign(old(rows), wants.Keys)
      ensures ok ==> AllHold(rows, wants)
      ensures OnlyKeys(old(rows), rows, wants.Keys)
      ensures AllHold(old(rows), wants) ==> rows == old(rows) && log == old(log)
    {
      var left := wants.Keys;
      while left != {}
        invariant Valid() && left <= wants.Keys
        invariant forall k | k in wants && k !in left :: Holds(rows, k, wants[k]) && !Foreign(old(rows), k)
        invariant OnlyKeys(old(rows), rows, wants.Keys - left)
        invariant AllHold(old(rows), wants) ==> rows == old(rows) && log == old(log)
      {
        var k :| k in left;
        ghost var before := rows;
        assert At(rows, k) == At(old(rows), k);
        ok := Settle(k, wants[k]);
        if !ok { return; }
        left := left - {k};
        forall j | j in wants && j !in left ensures Holds(rows, j, wants[j]) {
          assert At(rows, j) == At(before, j) || j == k;
        }
      }
      ok := true;
    }

    /** Switches off the config-managed rows of a kind that are not listed. */
    method RetireUnlisted(kind: Kind, listed: set<Key>)
      requires Valid() && kind in {Applications, Sources, Targets, Assignments}
      modifies this
      ensures Valid()
      ensures Cleared(rows, slug, kind, listed) && AppliedStands(old(rows), rows)
      ensures forall k :: KindOf(k) != kind || k in listed ==> At(rows, k) == At(old(rows), k)
      ensures kind.Sources? ==> rows == Without(old(rows), KeysOf(old(rows), slug, kind) - listed, now)
      ensures OnlySwitched(old(rows), rows)
      ensures Cleared(old(rows), slug, kind, listed) ==> rows == old(rows) && log == old(log)
    {
      var left := KeysOf(rows, slug, kind) - listed;
      ghost var done: set<Key> := {};
      assert rows == Without(rows, {}, now);
      while left != {}
        invariant Valid() && done + left == KeysOf(old(rows), slug, kind) - listed && done !! left
        invariant rows == Without(old(rows), done, now)
        invariant Cleared(old(rows), slug, kind, listed) ==> log == old(log)
      {
        var k :| k in left;
        RetiresNext(old(rows), done, k, now);
        if Removable(rows[k]) { Write(k, Retired(rows[k], now)); }
        done, left := done + {k}, left - {k};
      }
      assert done == KeysOf(old(rows), slug, kind) - listed;
      WithoutClears(old(rows), slug, kind, listed, now);
    }

    // ---------------------------------------------------------- the phases

    method ApplyEnvironment(w: Want) returns (ok: bool)
      requires Valid() && w.WantEnv?
      modifies this
      ensures Valid() && OnlyKinds(old(rows), rows, {Environments})
      ensures ok <==> !Foreign(old(rows), EnvKey(slug))
      ensures ok ==> Holds(rows, EnvKey(slug), w)
      ensures Holds(old(rows), EnvKey(slug), w) ==> rows == old(rows) && log == old(log)
    {
      ok := Settle(EnvKey(slug), w);
    }

    /** The file's applications, then the unlisted ones. */
    method ApplyApplications(wants: map<Key, Want>) returns (ok: bool)
      requires Valid() && Fits(wants, slug, Applications)
      modifies this
      ensures Valid() && OnlyKinds(old(rows), rows, {Applications})
      ensures ok <==> !AnyForeign(old(rows), wants.Keys)
      ensures ok ==> KindSettled(rows, slug, Applications, wants)
      ensures KindSettled(old(rows), slug, Applications, wants) ==> rows == old(rows) && log == old(log)
    {
      ok := SettleAll(wants);
      if !ok { return; }
      ghost var settled := rows;
      RetireUnlisted(Applications, wants.Keys);
      AllHoldKept(settled, rows, wants);
    }

    /** A component the file drops stays as it is. */
    method ApplyComponents(wants: map<Key, Want>) returns (ok: bool)
      requires Valid() && Fits(wants, slug, Components)
      modifies this
      ensures Valid() && OnlyKinds(old(rows), rows, {Components})
      ensures ok <==> !AnyForeign(old(rows), wants.Keys)
      ensures ok ==> AllHold(rows, wants)
      ensures AllHold(old(rows), wants) ==> rows == old(rows) && log == old(log)
    {
      ok := SettleAll(wants);
    }

    /** Sends a target's applied assignments back to approved. */
    method Reapprove(target: Name)
      requires Valid() && TargetKey(slug, target) in rows && rows[TargetKey(slug, target)].managed.Config?
      modifies this
      ensures Valid() && OnlyKinds(old(rows), rows, {Assignments})
      ensures rows == Reapproved(old(rows), AppliedKeys(old(rows), slug, target), now)
    {
      var left := AppliedKeys(rows, slug, target);
      ghost var done: set<Key> := {};
      assert rows == Reapproved(rows, {}, now);
      while left != {}
        invariant Valid() && done + left == AppliedKeys(old(rows), slug, target) && done !! left
        invariant rows == Reapproved(old(rows), done, now)
      {
        var k :| k in left;
        ReapprovesNext(old(rows), done, k, now);
        Write(k, rows[k].(state := Approved, approvedAt := Some(now)));
        done, left := done + {k}, left - {k};
      }
      assert done == AppliedKeys(old(rows), slug, target);
    }

    /** Brings a target in line with the file; a new connection is to be confirmed again for its probes. */
    method SettleTarget(k: Key, w: Want) returns (ok: bool)
      requires Valid() && k.TargetKey? && k.env == slug && w.WantTarget?
      modifies this
      ensures Valid()
      ensures ok <==> !Stopped(old(rows), k, w)
      ensures if ok then Holds(rows, k, w) else rows == old(rows)
      ensures forall j :: j != k && !j.AssignKey? ==> At(rows, j) == At(old(rows), j)
      ensures AppliedStands(old(rows), rows) && SameOwners(old(rows), rows, Assignments)
      ensures Holds(old(rows), k, w) ==> rows == old(rows) && log == old(log)
    {
      if k !in rows {
        if Taken(rows, k, w) { return false; }
        Write(k, Made(w, 0, now));
        return true;
      }
      if rows[k].managed.Api? || rows[k].engine != w.engine { return false; }
      UpdatedMeets(rows[k], w, now);
      if Meets(rows[k], w) { return true; }
      if Taken(rows, k, w) { return false; }
      var moved := rows[k].connection != w.connection;
      Write(k, Updated(rows[k], w, now));
      if moved { Reapprove(k.target); }
      ok := true;
    }

    /** Settles them in the file's order. */
    method SettleTargets(wants: map<Key, Want>, order: seq<Key>) returns (ok: bool)
      requires Valid() && Fits(wants, slug, Targets) && Apart(wants) && Lists(order, wants)
      modifies this
      ensures Valid() && AppliedStands(old(rows), rows) && SameOwners(old(rows), rows, Assignments)
      ensures ok <==> !TargetsBlocked(old(rows), wants, order)
      ensures ok ==> AllHold(rows, wants)
      ensures forall j :: j !in wants && !j.AssignKey? ==> At(rows, j) == At(old(rows), j)
      ensures AllHold(old(rows), wants) ==> rows == old(rows) && log == old(log)
    {
      for i := 0 to |order|
        invariant Valid() && Settling(old(rows), rows, wants, order, i)
        invariant AllHold(old(rows), wants) ==> rows == old(rows) && log == old(log)
      {
        ghost var before := rows;
        ok := SettleTarget(order[i], wants[order[i]]);
        if !ok {
          SettlingStops(old(rows), rows, slug, wants, order, i);
          return;
        }
        SettlingNext(old(rows), before, rows, slug, wants, order, i);
      }
      SettlingEnds(old(rows), rows, wants, order);
      ok := true;
    }

    /** The unlisted targets first, then the file's. */
    method ApplyTargets(wants: map<Key, Want>, order: seq<Key>) returns (ok: bool)
      requires Valid() && Fits(wants, slug, Targets) && Apart(wants) && Lists(order, wants)
      modifies this
      ensures Valid() && OnlyKinds(old(rows), rows, {Targets, Assignments}) && AppliedStands(old(rows), rows)
      ensures SameOwners(old(rows), rows, Assignments)
      ensures ok <==> !TargetsBlocked(old(rows), wants, order)
      ensures ok ==> KindSettled(rows, slug, Targets, wants)
      ensures KindSettled(old(rows), slug, Targets, wants) ==> rows == old(rows) && log == old(log)
    {
      RetireUnlisted(Targets, wants.Keys);
      ghost var cleared := rows;
      TargetsRetired(old(rows), rows, wants, order);
      ok := SettleTargets(wants, order);
      TargetsChanged(old(rows), cleared, rows, wants.Keys);
      AppliedStandsTwice(old(rows), cleared, rows);
      ClearedKept(cleared, rows, slug, Targets, wants.Keys);
    }

    /** Brings an assignment in line with the file, approved; a new one needs an enabled definition. */
    method SettleProbe(k: Key, w: Want, ghost engine: Name) returns (ok: bool)
      requires Valid() && k.AssignKey? && k.env == slug && w.WantProbe?
      requires Hosts(rows, TargetKey(slug, k.target), engine)
      modifies this
      ensures Valid()
      ensures ok <==> !ProbeBlocked(old(rows), k, engine, definitions)
      ensures ok ==> Holds(rows, k, w)
      ensures (forall j :: j != k ==> At(rows, j) == At(old(rows), j)) && AppliedStands(old(rows), rows)
      ensures Holds(old(rows), k, w) ==> rows == old(rows) && log == old(log)
    {
      if k !in rows {
        var target := rows[TargetKey(slug, k.target)];
        if !Definable(definitions, target.engine, k.probe) { return false; }
        Write(k, Made(w, definitions[(target.engine, k.probe)].id, now));
        return true;
      }
      if rows[k].managed.Api? { return false; }
      UpdatedMeets(rows[k], w, now);
      if !Meets(rows[k], w) { Write(k, Updated(rows[k], w, now)); }
      ok := true;
    }

    method SettleProbes(wants: map<Key, Want>, ghost targets: map<Key, Want>) returns (ok: bool)
      requires Valid() && Fits(wants, slug, Assignments) && Hosted(rows, wants, targets)
      modifies this
      ensures Valid() && AppliedStands(old(rows), rows)
      ensures ok <==> !ProbesBlocked(old(rows), wants.Keys, targets, definitions)
      ensures ok ==> AllHold(rows, wants)
      ensures OnlyKeys(old(rows), rows, wants.Keys)
      ensures AllHold(old(rows), wants) ==> rows == old(rows) && log == old(log)
    {
      var left := wants.Keys;
      while left != {}
        invariant Valid() && left <= wants.Keys && AppliedStands(old(rows), rows) && Hosted(rows, wants, targets)
        invariant HoldBut(rows, wants, left) && OnlyKeys(old(rows), rows, wants.Keys - left)
        invariant !ProbesBlocked(old(rows), wants.Keys - left, targets, definitions)
        invariant AllHold(old(rows), wants) ==> rows == old(rows) && log == old(log)
      {
        var k :| k in left;
        ghost var before := rows;
        ProbesNext(old(rows), rows, wants, left, targets, definitions, k);
        ok := SettleProbe(k, wants[k], EngineWanted(targets, k));
        AppliedStandsTwice(old(rows), before, rows);
        if !ok { return; }
        HostedKept(before, rows, wants, targets);
        HoldNext(before, rows, wants, left, k);
        left := left - {k};
      }
      ok := true;
    }

    /** The unlisted assignments first, then the file's. */
    method ApplyAssignments(wants: map<Key, Want>, ghost targets: map<Key, Want>) returns (ok: bool)
      requires Valid() && Fits(wants, slug, Assignments) && Hosted(rows, wants, targets)
      modifies this
      ensures Valid() && OnlyKinds(old(rows), rows, {Assignments}) && AppliedStands(old(rows), rows)
      ensures ok <==> !ProbesBlocked(old(rows), wants.Keys, targets, definitions)
      ensures ok ==> KindSettled(rows, slug, Assignments, wants)
      ensures KindSettled(old(rows), slug, Assignments, wants) ==> rows == old(rows) && log == old(log)
    {
      RetireUnlisted(Assignments, wants.Keys);
      ghost var cleared := rows;
      AssignmentsRetired(old(rows), rows, wants, targets, definitions);
      ok := SettleProbes(wants, targets);
      AssignmentsChanged(old(rows), cleared, rows, wants.Keys);
      AppliedStandsTwice(old(rows), cleared, rows);
      ClearedKept(cleared, rows, slug, Assignments, wants.Keys);
    }

    /** The last source of every listed name, where there is one. */
    method Existing(names: set<SourceName>) returns (existing: map<SourceName, nat>)
      requires Valid()
      ensures forall n | n in names :: Found(rows, slug, n, existing)
    {
      existing := map[];
      var left := KeysOf(rows, slug, Sources);
      ghost var done: set<Key> := {};
      while left != {}
        invariant done + left == KeysOf(rows, slug, Sources) && done !! left
        invariant forall n | n in names :: FoundIn(rows, slug, n, existing, done)
      {
        var k :| k in left;
        var n := rows[k].name;
        if n in names && (n in existing ==> existing[n] < k.id) { existing := existing[n := k.id]; }
        done, left := done + {k}, left - {k};
      }
      assert done == KeysOf(rows, slug, Sources);
    }

    /** An ID after those of all sources. */
    method NewId() returns (id: nat)
      ensures forall k | k in rows && k.SourceKey? :: k.id < id
    {
      id := 0;
      var left := set k | k in rows && k.SourceKey?;
      while left != {}
        invariant left <= set k | k in rows && k.SourceKey?
        invariant forall k | k in rows && k.SourceKey? && k !in left :: k.id < id
      {
        var k :| k in left;
        if id <= k.id { id := k.id + 1; }
        left := left - {k};
      }
    }

    /** Brings a source in line with the file, unless another application claims its application name. */
    method SettleSource(n: SourceName, w: Want, existing: map<SourceName, nat>) returns (ok: bool)
      requires Valid() && WantsSource(n, w) && Found(rows, slug, n, existing)
      modifies this
      ensures Valid()
      ensures ok <==> !Refused(old(rows), slug, n, w, existing)
      ensures ok ==> Placed(rows, slug, n, w) && SourceWritten(old(rows), rows, slug, n, w)
      ensures !ok ==> rows == old(rows) && log == old(log)
      ensures OnlyKinds(old(rows), rows, {Sources})
      ensures Placed(old(rows), slug, n, w) ==> rows == old(rows) && log == old(log)
    {
      if w.status.Active? && !Unclaimed(rows, slug, n.app, n.applicationName) { return false; }
      if n in existing {
        ok := UpdateSource(n, w, existing[n]);
      } else {
        CreateSource(n, w);
        ok := true;
      }
    }

    method CreateSource(n: SourceName, w: Want)
      requires Valid() && WantsSource(n, w) && forall k | k in rows :: !IsSource(rows, slug, n, k)
      requires w.status.Active? ==> Unclaimed(rows, slug, n.app, n.applicationName)
      modifies this
      ensures Valid() && OnlyKinds(old(rows), rows, {Sources})
      ensures Placed(rows, slug, n, w) && SourceWritten(old(rows), rows, slug, n, w)
    {
      var id := NewId();
      PlacedByWrite(rows, slug, n, w, id, Made(w, 0, now));
      Write(SourceKey(slug, id), Made(w, 0, now));
    }

    method UpdateSource(n: SourceName, w: Want, id: nat) returns (ok: bool)
      requires Valid() && WantsSource(n, w) && Matches(rows, slug, n, id)
      requires w.status.Active? ==> Unclaimed(rows, slug, n.app, n.applicationName)
      modifies this
      ensures Valid()
      ensures ok <==> !Foreign(old(rows), SourceKey(slug, id))
      ensures ok ==> Placed(rows, slug, n, w) && SourceWritten(old(rows), rows, slug, n, w)
      ensures !ok ==> rows == old(rows) && log == old(log)
      ensures OnlyKinds(old(rows), rows, {Sources})
      ensures Holds(old(rows), SourceKey(slug, id), w) ==> rows == old(rows) && log == old(log)
    {
      var k := SourceKey(slug, id);
      if rows[k].managed.Api? { return false; }
      UpdatedMeets(rows[k], w, now);
      PlacedByWrite(rows, slug, n, w, id, Updated(rows[k], w, now));
      if Updated(rows[k], w, now) != rows[k] {
        Write(k, Updated(rows[k], w, now));
      } else {
        assert rows == rows[k := rows[k]];
      }
      ok := true;
    }

    method SettleSources(wants: map<SourceName, Want>, existing: map<SourceName, nat>) returns (ok: bool)
      requires Valid() && OneEach(wants.Keys)
      requires forall n | n in wants :: WantsSource(n, wants[n]) && Found(rows, slug, n, existing)
      modifies this
      ensures Valid() && OnlyKinds(old(rows), rows, {Sources})
      ensures ok <==> NoneRefused(old(rows), slug, wants, wants.Keys, existing)
      ensures ok ==> AllPlaced(rows, slug, wants)
      ensures SourcesCleared(old(rows), slug, wants.Keys) ==> SourcesCleared(rows, slug, wants.Keys)
      ensures AllPlaced(old(rows), slug, wants) ==> rows == old(rows) && log == old(log)
    {
      var left := wants.Keys;
      while left != {}
        invariant Valid() && OnlyKinds(old(rows), rows, {Sources}) && left <= wants.Keys
        invariant Placing(old(rows), rows, slug, wants, left, existing)
        invariant SourcesCleared(old(rows), slug, wants.Keys) ==> SourcesCleared(rows, slug, wants.Keys)
        invariant AllPlaced(old(rows), slug, wants) ==> rows == old(rows) && log == old(log)
      {
        var n :| n in left;
        ghost var before := rows;
        ok := SettleSource(n, wants[n], existing);
        if !ok { return; }
        PlacingNext(old(rows), before, rows, slug, wants, left, existing, n);
        SourcesClearedKept(before, rows, slug, n, wants[n], wants.Keys);
        left := left - {n};
      }
      ok := true;
    }

    /** The unlisted sources first, so that the names they held are free for the file's. */
    method ApplySources(wants: map<SourceName, Want>) returns (ok: bool)
      requires Valid() && OneEach(wants.Keys) && forall n | n in wants :: WantsSource(n, wants[n])
      modifies this
      ensures Valid() && OnlyKinds(old(rows), rows, {Sources})
      ensures ok <==> !SourcesBlocked(old(rows), slug, wants)
      ensures ok ==> AllPlaced(rows, slug, wants) && SourcesCleared(rows, slug, wants.Keys)
      ensures AllPlaced(old(rows), slug, wants) && SourcesCleared(old(rows), slug, wants.Keys) ==>
        rows == old(rows) && log == old(log)
    {
      var listed := set k | k in rows && k.SourceKey? && k.env == slug && rows[k].SourceRow?
        && rows[k].name in wants.Keys;
      ListedCleared(rows, slug, wants.Keys, listed);
      RetireUnlisted(Sources, listed);
      SourcesRetired(old(rows), slug, wants.Keys, listed, now);
      var existing := Existing(wants.Keys);
      NoneRefusedAfter(old(rows), slug, wants, listed, now, existing);
      ok := SettleSources(wants, existing);
    }

    /** The environment, its applications, their components and their telemetry sources. */
    method ApplyServices(w: Wants) returns (ok: bool)
      requires Valid() && WantsFit(w, slug)
      modifies this
      ensures Valid() && OnlyKinds(old(rows), rows, ServiceKinds())
      ensures ok <==> !ServicesBlocked(old(rows), slug, w)
      ensures ok ==> ServicesSettled(rows, slug, w)
      ensures ServicesSettled(old(rows), slug, w) ==> rows == old(rows) && log == old(log)
    {
      ghost var settled := ServicesSettled(rows, slug, w);
      ok := ApplyEnvironment(w.env);
      ghost var s0 := rows;
      ServicesChanged(old(rows), s0, s0, s0, s0);
      if !ok { return; }
      AppsBlockedSame(old(rows), s0, slug, w);
      ok := ApplyApplications(w.apps);
      assert settled ==> rows == old(rows) && log == old(log);
      ghost var s1 := rows;
      ServicesChanged(old(rows), s0, s1, s1, s1);
      if !ok { return; }
      ComponentsBlockedSame(old(rows), s0, s1, slug, w);
      ok := ApplyComponents(w.components);
      assert settled ==> rows == old(rows) && log == old(log);
      ghost var s2 := rows;
      ServicesChanged(old(rows), s0, s1, s2, s2);
      if !ok { return; }
      SourcesBlockedFirst(old(rows), s0, s1, s2, slug, w);
      ok := ApplySources(w.sources);
      ServicesChanged(old(rows), s0, s1, s2, rows);
      if ok { PhasesSettle(s0, s1, s2, rows, slug, w); }
    }

    /** The targets and their assignments. */
    method ApplyDatabases(w: Wants) returns (ok: bool)
      requires Valid() && WantsFit(w, slug)
      modifies this
      ensures Valid() && OnlyKinds(old(rows), rows, {Targets, Assignments}) && AppliedStands(old(rows), rows)
      ensures ok <==> !DatabasesBlocked(old(rows), w, definitions)
      ensures ok ==> DatabasesSettled(rows, slug, w)
      ensures DatabasesSettled(old(rows), slug, w) ==> rows == old(rows) && log == old(log)
    {
      ok := ApplyTargets(w.targets, w.order);
      if !ok { return; }
      ghost var s4 := rows;
      HostedBy(rows, w, slug);
      ProbesBlockedSame(old(rows), s4, w.probes.Keys, w.targets, definitions);
      ok := ApplyAssignments(w.probes, w.targets);
      OnlyKindsTwice(old(rows), s4, rows, {Targets, Assignments}, {Assignments});
      assert {Targets, Assignments} + {Assignments} == {Targets, Assignments};
      AppliedStandsTwice(old(rows), s4, rows);
      HoldKept(s4, rows, slug, Targets, w.targets, {Assignments});
    }

    /** The phases, in order, up to the first that refuses the file. */
    method Apply(w: Wants) returns (ok: bool)
      requires Valid() && WantsFit(w, slug)
      modifies this
      ensures Valid()
      ensures ok ==> SettledBy(rows, slug, w) && AppliedStands(old(rows), rows)
      ensures ok <==> !Blocked(old(rows), slug, w, definitions)
      ensures SettledBy(old(rows), slug, w) ==> rows == old(rows) && log == old(log)
    {
      ok := ApplyServices(w);
      if !ok { return; }
      ghost var s3 := rows;
      LastBlockedSame(old(rows), s3, slug, w, definitions);
      AppliedElsewhere(old(rows), s3, ServiceKinds());
      ok := ApplyDatabases(w);
      AppliedStandsTwice(old(rows), s3, rows);
      ServicesKept(s3, rows, slug, w, {Targets, Assignments});
    }
  }

  predicate Removable(r: Row) {
    r.managed.Config? && !Off(r)
  }

  /** The rows with those of the given keys that the file manages switched off. */
  function Without(rows: Rows, keys: set<Key>, now: Time): Rows {
    map k | k in rows :: if k in keys && Removable(rows[k]) then Retired(rows[k], now) else rows[k]
  }

  lemma {:induction false} RetiresNext(rows: Rows, done: set<Key>, k: Key, now: Time)
    requires k in rows && k !in done
    ensures Without(rows, done, now)[k] == rows[k]
    ensures Without(rows, done + {k}, now) ==
      if Removable(rows[k]) then Without(rows, done, now)[k := Retired(rows[k], now)] else Without(rows, done, now)
    ensures KindOfRow(Retired(rows[k], now)) == KindOfRow(rows[k]) && Retired(rows[k], now).managed == rows[k].managed
    ensures Removable(rows[k]) ==> Retired(rows[k], now) != rows[k]
    ensures rows[k].SourceRow? ==>
      Retired(rows[k], now).name == rows[k].name && Retired(rows[k], now).config == rows[k].config
  {
  }

  lemma {:induction false} WithoutClears(rows: Rows, slug: Name, kind: Kind, listed: set<Key>, now: Time)
    requires kind in {Applications, Sources, Targets, Assignments}
    ensures var after := Without(rows, KeysOf(rows, slug, kind) - listed, now);
      && Cleared(after, slug, kind, listed) && AppliedStands(rows, after) && OnlySwitched(rows, after)
      && (forall k :: KindOf(k) != kind || k in listed ==> At(after, k) == At(rows, k))
      && (Cleared(rows, slug, kind, listed) ==> after == rows)
  {
  }

  /** All but those left hold. */
  ghost predicate HoldBut(rows: Rows, wants: map<Key, Want>, left: set<Key>) {
    forall k | k in wants && k !in left :: Holds(rows, k, wants[k])
  }

  lemma {:induction false} HoldNext(before: Rows, after: Rows, wants: map<Key, Want>, left: set<Key>, k: Key)
    requires HoldBut(before, wants, left) && k in wants && Holds(after, k, wants[k])
    requires forall j :: j != k ==> At(after, j) == At(before, j)
    ensures HoldBut(after, wants, left - {k})
  {
    forall j | j in wants && j !in left - {k} ensures Holds(after, j, wants[j]) {
      assert j == k || At(after, j) == At(before, j);
    }
  }

  lemma {:induction false} AllHoldKept(before: Rows, after: Rows, wants: map<Key, Want>)
    requires AllHold(before, wants) && forall k :: k in wants ==> At(after, k) == At(before, k)
    ensures AllHold(after, wants)
  {
    forall k | k in wants ensures Holds(after, k, wants[k]) {
      assert At(after, k) == At(before, k);
    }
  }

  lemma {:induction false} ClearedKept(before: Rows, after: Rows, slug: Name, kind: Kind, listed: set<Key>)
    requires Cleared(before, slug, kind, listed)
    requires forall k :: KindOf(k) == kind && k !in listed ==> At(after, k) == At(before, k)
    ensures Cleared(after, slug, kind, listed)
  {
    forall k | k in after && k.env == slug && KindOf(k) == kind && k !in listed
      ensures after[k].managed.Config? ==> Off(after[k])
    {
      assert At(after, k) == At(before, k);
    }
  }

  // ------------------------------------------------------------ targets

  /** Another target of the environment is for the same database of the same server. */
  predicate Taken(rows: Rows, k: Key, w: Want) {
    exists j | j in rows :: Rival(rows, k, w, j)
  }

  /** The target cannot be settled among the rows as they are. */
  ghost predicate Stopped(rows: Rows, k: Key, w: Want) {
    || Foreign(rows, k)
    || (w.WantTarget? && k in rows && rows[k].TargetRow? && rows[k].engine != w.engine)
    || (!Holds(rows, k, w) && Taken(rows, k, w))
  }

  ghost predicate FirstHold(rows: Rows, wants: map<Key, Want>, order: seq<Key>, n: nat)
    requires n <= |order|
  {
    forall i | 0 <= i < n && order[i] in wants :: Holds(rows, order[i], wants[order[i]])
  }

  ghost predicate FirstFree(rows: Rows, wants: map<Key, Want>, order: seq<Key>, n: nat)
    requires n <= |order|
  {
    forall i | 0 <= i < n && order[i] in wants :: !TargetBlocked(rows, order[i], wants[order[i]], order[..i])
  }

  /** The first targets are settled and nothing stopped them; other rows, but for assignments, are as at the start. */
  ghost predicate Settling(start: Rows, rows: Rows, wants: map<Key, Want>, order: seq<Key>, n: nat)
    requires n <= |order|
  {
    && FirstHold(rows, wants, order, n) && FirstFree(start, wants, order, n)
    && AppliedStands(start, rows) && SameOwners(start, rows, Assignments)
    && forall j :: j !in order[..n] && !j.AssignKey? ==> At(rows, j) == At(start, j)
  }

  lemma {:induction false} SettlingStops(
      start: Rows, rows: Rows, slug: Name, wants: map<Key, Want>, order: seq<Key>, i: nat)
    requires Fits(wants, slug, Targets) && Apart(wants) && Lists(order, wants) && i < |order|
    requires Settling(start, rows, wants, order, i) && Stopped(rows, order[i], wants[order[i]])
    ensures TargetsBlocked(start, wants, order)
    ensures forall j :: j !in wants && !j.AssignKey? ==> At(rows, j) == At(start, j)
  {
    StoppedAt(start, rows, slug, wants, order, i);
    ListedAreWanted(wants, order, i);
  }

  lemma {:induction false} ListedAreWanted(wants: map<Key, Want>, order: seq<Key>, n: nat)
    requires Lists(order, wants) && n <= |order|
    ensures forall j | j in order[..n] :: j in wants
  {
    forall j | j in order[..n] ensures j in wants {
      var i :| 0 <= i < n && order[i] == j;
    }
  }

  lemma {:induction false} SettlingNext(
      start: Rows, before: Rows, after: Rows, slug: Name, wants: map<Key, Want>, order: seq<Key>, i: nat)
    requires Fits(wants, slug, Targets) && Apart(wants) && Lists(order, wants) && i < |order|
    requires Settling(start, before, wants, order, i) && !Stopped(before, order[i], wants[order[i]])
    requires Holds(after, order[i], wants[order[i]])
    requires AppliedStands(before, after) && SameOwners(before, after, Assignments)
    requires forall j :: j != order[i] && !j.AssignKey? ==> At(after, j) == At(before, j)
    ensures Settling(start, after, wants, order, i + 1)
  {
    StoppedAt(start, before, slug, wants, order, i);
    AppliedStandsTwice(start, before, after);
    SameOwnersTwice(start, before, after, Assignments);
    FirstHoldNext(before, after, slug, wants, order, i);
    assert order[..i + 1] == order[..i] + [order[i]];
  }

  lemma {:induction false} SettlingEnds(start: Rows, rows: Rows, wants: map<Key, Want>, order: seq<Key>)
    requires Lists(order, wants) && Settling(start, rows, wants, order, |order|)
    ensures AllHold(rows, wants) && !TargetsBlocked(start, wants, order)
    ensures forall j :: j !in wants && !j.AssignKey? ==> At(rows, j) == At(start, j)
  {
    assert order[..|order|] == order;
    ListedAreWanted(wants, order, |order|);
    forall k | k in wants ensures Holds(rows, k, wants[k]) {
      var i :| 0 <= i < |order| && order[i] == k;
    }
  }

  /** With the first targets settled, what stops the next one is a row of the start. */
  lemma {:induction false} StoppedAt(
      start: Rows, rows: Rows, slug: Name, wants: map<Key, Want>, order: seq<Key>, i: nat)
    requires Fits(wants, slug, Targets) && Apart(wants) && Lists(order, wants) && i < |order|
    requires FirstHold(rows, wants, order, i)
    requires forall j :: j !in order[..i] && !j.AssignKey? ==> At(rows, j) == At(start, j)
    ensures var k := order[i]; Stopped(rows, k, wants[k]) <==> TargetBlocked(start, k, wants[k], order[..i])
  {
    var k := order[i];
    var w := wants[k];
    assert At(rows, k) == At(start, k);
    forall j ensures Rival(rows, k, w, j) <==> j !in order[..i] && Rival(start, k, w, j) {
      if j in order[..i] {
        SettledElsewhere(rows, wants, order, i, j);
      } else if !j.AssignKey? {
        RivalSame(start, rows, k, w, j);
      }
    }
  }

  lemma {:induction false} SettledElsewhere(rows: Rows, wants: map<Key, Want>, order: seq<Key>, i: nat, j: Key)
    requires Apart(wants) && Lists(order, wants) && i < |order| && FirstHold(rows, wants, order, i) && j in order[..i]
    ensures !Rival(rows, order[i], wants[order[i]], j)
  {
    var n :| 0 <= n < i && order[n] == j;
    assert Holds(rows, order[n], wants[order[n]]);
  }

  lemma {:induction false} FirstHoldNext(
      before: Rows, after: Rows, slug: Name, wants: map<Key, Want>, order: seq<Key>, i: nat)
    requires Fits(wants, slug, Targets) && Lists(order, wants) && i < |order| && FirstHold(before, wants, order, i)
    requires Holds(after, order[i], wants[order[i]])
    requires forall j :: j != order[i] && !j.AssignKey? ==> At(after, j) == At(before, j)
    ensures FirstHold(after, wants, order, i + 1)
  {
    forall n | 0 <= n < i + 1 ensures Holds(after, order[n], wants[order[n]]) {
      if n < i {
        assert order[n] in order[..i];
        assert At(after, order[n]) == At(before, order[n]);
      }
    }
  }

  /** The same rows are there, managed as they were, and the targets for the same databases. */
  ghost predicate OnlySwitched(before: Rows, after: Rows) {
    before.Keys == after.Keys && forall k | k in before && k in after :: SwitchOf(before[k], after[k])
  }

  predicate SwitchOf(r: Row, t: Row) {
    && t.managed == r.managed && (t.TargetRow? <==> r.TargetRow?)
    && (r.TargetRow? ==> t.engine == r.engine && t.connection == r.connection)
  }

  /** Switching off the targets the file does not list leaves their databases held. */
  lemma {:induction false} TargetsRetired(before: Rows, after: Rows, wants: map<Key, Want>, order: seq<Key>)
    requires OnlySwitched(before, after) && forall k | k in wants :: At(after, k) == At(before, k)
    ensures SameOwners(before, after, Assignments)
    ensures TargetsBlocked(before, wants, order) <==> TargetsBlocked(after, wants, order)
  {
    forall k, j | k in wants ensures Rival(before, k, wants[k], j) <==> Rival(after, k, wants[k], j) {
      assert j in before && j in after ==> SwitchOf(before[j], after[j]);
    }
    TargetsBlockedSame(before, after, wants, order);
    SwitchedOwners(before, after);
  }

  lemma {:induction false} TargetsChanged(a: Rows, b: Rows, c: Rows, listed: set<Key>)
    requires forall k :: KindOf(k) != Targets || k in listed ==> At(b, k) == At(a, k)
    requires (forall k | k in listed :: KindOf(k) == Targets) && SameOwners(a, b, Assignments)
    requires forall k :: k !in listed && !k.AssignKey? ==> At(c, k) == At(b, k)
    requires SameOwners(b, c, Assignments)
    ensures OnlyKinds(a, c, {Targets, Assignments}) && SameOwners(a, c, Assignments)
  {
    forall k | KindOf(k) !in {Targets, Assignments} ensures At(c, k) == At(a, k) {
      assert k !in listed && At(b, k) == At(a, k);
    }
    SameOwnersTwice(a, b, c, Assignments);
  }

  lemma {:induction false} SwitchedOwners(before: Rows, after: Rows)
    requires OnlySwitched(before, after)
    ensures SameOwners(before, after, Assignments)
  {
    forall k | k in before && k in after ensures before[k].managed == after[k].managed {
      assert SwitchOf(before[k], after[k]);
    }
  }

  /** The target's assignments that the collector is known to run. */
  function AppliedKeys(rows: Rows, slug: Name, target: Name): set<Key> {
    set k | k in rows && k.AssignKey? && k.env == slug && k.target == target && rows[k].AssignRow?
      && rows[k].state.Applied?
  }

  function Reapproved(rows: Rows, keys: set<Key>, now: Time): Rows {
    map k | k in rows ::
      if k in keys && rows[k].AssignRow? then rows[k].(state := Approved, approvedAt := Some(now)) else rows[k]
  }

  lemma {:induction false} ReapprovesNext(rows: Rows, done: set<Key>, k: Key, now: Time)
    requires k in rows && k !in done && rows[k].AssignRow?
    ensures Reapproved(rows, done, now)[k] == rows[k]
    ensures Reapproved(rows, done + {k}, now)
      == Reapproved(rows, done, now)[k := rows[k].(state := Approved, approvedAt := Some(now))]
  {
  }

  /** What the collector is known to run was so before, by the same policy, over the same connection. */
  ghost predicate AppliedStands(before: Rows, after: Rows) {
    forall k | k in after && k.AssignKey? && after[k].AssignRow? && after[k].state.Applied? ::
      && At(before, k) == Some(after[k])
      && ConnectionOf(before, k) == ConnectionOf(after, k)
  }

  /** The connection of the target an assignment is for. */
  function ConnectionOf(rows: Rows, k: Key): Option<Connection>
    requires k.AssignKey?
  {
    var target := TargetKey(k.env, k.target);
    if target in rows && rows[target].TargetRow? then Some(rows[target].connection) else None
  }

  lemma {:induction false} AppliedStandsTwice(a: Rows, b: Rows, c: Rows)
    requires AppliedStands(a, b) && AppliedStands(b, c)
    ensures AppliedStands(a, c)
  {
  }

  // ------------------------------------------------------------ assignments

  /** The targets of the wanted assignments are there, and the file manages them. */
  ghost predicate Hosted(rows: Rows, wants: map<Key, Want>, targets: map<Key, Want>) {
    forall k | k in wants && k.AssignKey? :: Hosts(rows, TargetKey(k.env, k.target), EngineWanted(targets, k))
  }

  predicate Hosts(rows: Rows, target: Key, engine: Name) {
    target in rows && rows[target].managed.Config? && rows[target].TargetRow? && rows[target].engine == engine
  }

  lemma {:induction false} HostedKept(before: Rows, after: Rows, wants: map<Key, Want>, targets: map<Key, Want>)
    requires Hosted(before, wants, targets) && forall k: Key :: k.TargetKey? ==> At(after, k) == At(before, k)
    ensures Hosted(after, wants, targets)
  {
    forall k | k in wants && k.AssignKey?
      ensures Hosts(after, TargetKey(k.env, k.target), EngineWanted(targets, k))
    {
      assert At(after, TargetKey(k.env, k.target)) == At(before, TargetKey(k.env, k.target));
    }
  }

  lemma {:induction false} AssignmentsRetired(before: Rows, after: Rows, wants: map<Key, Want>,
      targets: map<Key, Want>, definitions: Definitions)
    requires Hosted(before, wants, targets) && OnlySwitched(before, after)
    ensures Hosted(after, wants, targets)
    ensures ProbesBlocked(before, wants.Keys, targets, definitions) <==>
      ProbesBlocked(after, wants.Keys, targets, definitions)
  {
    forall k | k in wants && k.AssignKey?
      ensures Hosts(after, TargetKey(k.env, k.target), EngineWanted(targets, k))
    {
      var t := TargetKey(k.env, k.target);
      assert Hosts(before, t, EngineWanted(targets, k));
      assert SwitchOf(before[t], after[t]);
    }
    SwitchedOwners(before, after);
    ProbesBlockedSame(before, after, wants.Keys, targets, definitions);
  }

  lemma {:induction false} AssignmentsChanged(a: Rows, b: Rows, c: Rows, listed: set<Key>)
    requires forall k :: KindOf(k) != Assignments || k in listed ==> At(b, k) == At(a, k)
    requires (forall k | k in listed :: KindOf(k) == Assignments) && OnlyKeys(b, c, listed)
    ensures OnlyKinds(a, c, {Assignments})
  {
    forall k | KindOf(k) != Assignments ensures At(c, k) == At(a, k) {
      assert k !in listed && At(b, k) == At(a, k);
    }
  }

  /** One more assignment settled, and free to be. */
  lemma {:induction false} ProbesNext(start: Rows, before: Rows, wants: map<Key, Want>, left: set<Key>,
      targets: map<Key, Want>, definitions: Definitions, k: Key)
    requires k.AssignKey? && k in left && left <= wants.Keys && OnlyKeys(start, before, wants.Keys - left)
    ensures var blocked := ProbeBlocked(before, k, EngineWanted(targets, k), definitions);
      && (blocked ==> ProbesBlocked(start, wants.Keys, targets, definitions))
      && (!blocked && !ProbesBlocked(start, wants.Keys - left, targets, definitions) ==>
            !ProbesBlocked(start, wants.Keys - (left - {k}), targets, definitions))
  {
    assert At(before, k) == At(start, k);
    assert wants.Keys - (left - {k}) == wants.Keys - left + {k};
  }

  // ------------------------------------------------------------ sources

  predicate IsSource(rows: Rows, slug: Name, n: SourceName, k: Key) {
    k in rows && k.SourceKey? && k.env == slug && rows[k].SourceRow? && rows[k].name == n
  }

  predicate WantsSource(n: SourceName, w: Want) {
    w.WantSource? && w.name == n && w.config.applicationName == n.applicationName
  }

  /** The map has the last source of the name among the keys, if there is any. */
  ghost predicate FoundIn(rows: Rows, slug: Name, n: SourceName, existing: map<SourceName, nat>, keys: set<Key>) {
    if n in existing then
      && SourceKey(slug, existing[n]) in keys && IsSource(rows, slug, n, SourceKey(slug, existing[n]))
      && forall k | k in keys && IsSource(rows, slug, n, k) :: k.id <= existing[n]
    else forall k | k in keys :: !IsSource(rows, slug, n, k)
  }

  ghost predicate Found(rows: Rows, slug: Name, n: SourceName, existing: map<SourceName, nat>) {
    if n in existing then Matches(rows, slug, n, existing[n]) else forall k | k in rows :: !IsSource(rows, slug, n, k)
  }

  /** The source the name is matched to holds the file's fields, and no other application claims its name. */
  ghost predicate Placed(rows: Rows, slug: Name, n: SourceName, w: Want) {
    && w.WantSource?
    && (exists id :: Matches(rows, slug, n, id) && Holds(rows, SourceKey(slug, id), w))
    && (w.status.Active? ==> Unclaimed(rows, slug, n.app, n.applicationName))
  }

  ghost predicate AllPlaced(rows: Rows, slug: Name, wants: map<SourceName, Want>) {
    forall n | n in wants :: Placed(rows, slug, n, wants[n])
  }

  /** The one row that may have changed is a source of the name, as the file wants it, and could be claimed. */
  ghost predicate SourceWritten(before: Rows, after: Rows, slug: Name, n: SourceName, w: Want) {
    && w.WantSource? && (w.status.Active? ==> Unclaimed(before, slug, n.app, n.applicationName))
    && exists id ::
         && after == before[SourceKey(slug, id) := SourceRow(Config, n, w.config, w.status)]
         && (SourceKey(slug, id) in before ==> IsSource(before, slug, n, SourceKey(slug, id)))
  }

  lemma {:induction false} PlacedByWrite(rows: Rows, slug: Name, n: SourceName, w: Want, id: nat, row: Row)
    requires WantsSource(n, w) && row == SourceRow(Config, n, w.config, w.status)
    requires w.status.Active? ==> Unclaimed(rows, slug, n.app, n.applicationName)
    requires forall k | k in rows && IsSource(rows, slug, n, k) :: k.id <= id
    requires SourceKey(slug, id) in rows ==> IsSource(rows, slug, n, SourceKey(slug, id))
    ensures var after := rows[SourceKey(slug, id) := row];
      Placed(after, slug, n, w) && SourceWritten(rows, after, slug, n, w)
  {
    var after := rows[SourceKey(slug, id) := row];
    assert Matches(after, slug, n, id) && Holds(after, SourceKey(slug, id), w);
  }

  /** The source cannot be settled among the rows as they are. */
  ghost predicate Refused(rows: Rows, slug: Name, n: SourceName, w: Want, existing: map<SourceName, nat>) {
    || (w.WantSource? && w.status.Active? && !Unclaimed(rows, slug, n.app, n.applicationName))
    || (n in existing && Foreign(rows, SourceKey(slug, existing[n])))
  }

  ghost predicate NoneRefused(rows: Rows, slug: Name, wants: map<SourceName, Want>, names: set<SourceName>,
      existing: map<SourceName, nat>) {
    forall n | n in names && n in wants :: !Refused(rows, slug, n, wants[n], existing)
  }

  /** Settling one source neither refuses nor frees another: the file gives an application name to one application. */
  lemma {:induction false} RefusedKept(before: Rows, after: Rows, slug: Name, n: SourceName, w: Want, m: SourceName,
      v: Want, existing: map<SourceName, nat>)
    requires RowsOk(before) && SourceWritten(before, after, slug, n, w) && WantsSource(n, w) && m != n
    requires Found(before, slug, m, existing) && (n.applicationName == m.applicationName ==> n.app == m.app)
    ensures Refused(before, slug, m, v, existing) <==> Refused(after, slug, m, v, existing)
  {
    var id :| after == before[SourceKey(slug, id) := SourceRow(Config, n, w.config, w.status)]
      && (SourceKey(slug, id) in before ==> IsSource(before, slug, n, SourceKey(slug, id)));
    var k := SourceKey(slug, id);
    assert !Claims(after[k], m.app, m.applicationName);
    assert k in before ==> !Claims(before[k], m.app, m.applicationName);
    if m in existing { assert SourceKey(slug, existing[m]) != k; }
  }

  /** Those settled are placed and were not refused; those left are found and refused as they were at the start. */
  ghost predicate Placing(start: Rows, rows: Rows, slug: Name, wants: map<SourceName, Want>, left: set<SourceName>,
      existing: map<SourceName, nat>) {
    && (forall n | n in wants && n !in left :: Placed(rows, slug, n, wants[n]))
    && NoneRefused(start, slug, wants, wants.Keys - left, existing)
    && (forall n | n in left && n in wants :: Found(rows, slug, n, existing)
          && (Refused(start, slug, n, wants[n], existing) <==> Refused(rows, slug, n, wants[n], existing)))
  }

  lemma {:induction false} PlacingNext(start: Rows, before: Rows, after: Rows, slug: Name, wants: map<SourceName, Want>,
      left: set<SourceName>, existing: map<SourceName, nat>, n: SourceName)
    requires RowsOk(before) && OneEach(wants.Keys) && n in left && n in wants
    requires forall m | m in wants :: WantsSource(m, wants[m])
    requires Placing(start, before, slug, wants, left, existing) && !Refused(before, slug, n, wants[n], existing)
    requires Placed(after, slug, n, wants[n]) && SourceWritten(before, after, slug, n, wants[n])
    ensures Placing(start, after, slug, wants, left - {n}, existing)
  {
    forall m | m in wants && m !in left ensures Placed(after, slug, m, wants[m]) {
      PlacedKept(before, after, slug, n, wants[n], m, wants[m]);
    }
    forall m | m in left - {n} && m in wants
      ensures Found(after, slug, m, existing)
      ensures Refused(start, slug, m, wants[m], existing) <==> Refused(after, slug, m, wants[m], existing)
    {
      FoundKept(before, after, slug, n, wants[n], m, existing);
      RefusedKept(before, after, slug, n, wants[n], m, wants[m], existing);
    }
  }

  lemma {:induction false} ClaimRetired(rows: Rows, slug: Name, names: set<SourceName>, listed: set<Key>, now: Time,
      n: SourceName)
    requires RowsOk(rows) && OneEach(names) && n in names
    requires listed == set k | k in rows && k.SourceKey? && k.env == slug && rows[k].SourceRow? && rows[k].name in names
    ensures var after := Without(rows, KeysOf(rows, slug, Sources) - listed, now);
      Unclaimed(after, slug, n.app, n.applicationName) <==> !ClaimedByApi(rows, slug, n)
  {
    var after := Without(rows, KeysOf(rows, slug, Sources) - listed, now);
    forall k | k in rows && k.SourceKey? && k.env == slug
      ensures Claims(after[k], n.app, n.applicationName) <==>
        rows[k].managed.Api? && Claims(rows[k], n.app, n.applicationName)
    {
      if k !in listed { assert k in KeysOf(rows, slug, Sources) - listed; }
    }
  }

  lemma {:induction false} NoneRefusedAfter(rows: Rows, slug: Name, wants: map<SourceName, Want>, listed: set<Key>,
      now: Time, existing: map<SourceName, nat>)
    requires RowsOk(rows) && OneEach(wants.Keys) && forall n | n in wants :: WantsSource(n, wants[n])
    requires listed == set k | k in rows && k.SourceKey? && k.env == slug && rows[k].SourceRow?
      && rows[k].name in wants.Keys
    requires var after := Without(rows, KeysOf(rows, slug, Sources) - listed, now);
      forall n | n in wants :: Found(after, slug, n, existing)
    ensures var after := Without(rows, KeysOf(rows, slug, Sources) - listed, now);
      NoneRefused(after, slug, wants, wants.Keys, existing) <==> !SourcesBlocked(rows, slug, wants)
  {
    var after := Without(rows, KeysOf(rows, slug, Sources) - listed, now);
    forall n | n in wants
      ensures Refused(after, slug, n, wants[n], existing) <==> SourceBlocked(rows, slug, n, wants[n])
    {
      ClaimRetired(rows, slug, wants.Keys, listed, now, n);
      MatchedAfter(rows, slug, listed, now, n, existing);
    }
  }

  lemma {:induction false} MatchedAfter(rows: Rows, slug: Name, listed: set<Key>, now: Time, n: SourceName,
      existing: map<SourceName, nat>)
    requires RowsOk(rows)
    requires Found(Without(rows, KeysOf(rows, slug, Sources) - listed, now), slug, n, existing)
    ensures var after := Without(rows, KeysOf(rows, slug, Sources) - listed, now);
      (n in existing && Foreign(after, SourceKey(slug, existing[n]))) <==>
        exists id :: Matches(rows, slug, n, id) && Foreign(rows, SourceKey(slug, id))
  {
    var after := Without(rows, KeysOf(rows, slug, Sources) - listed, now);
    forall k ensures IsSource(after, slug, n, k) <==> IsSource(rows, slug, n, k) {}
    if n in existing {
      assert IsSource(rows, slug, n, SourceKey(slug, existing[n]));
      assert Matches(rows, slug, n, existing[n]);
      forall id | Matches(rows, slug, n, id) ensures id == existing[n] {
        assert IsSource(rows, slug, n, SourceKey(slug, id));
      }
    } else {
      forall id | Matches(rows, slug, n, id) ensures false {
        assert IsSource(rows, slug, n, SourceKey(slug, id));
      }
    }
  }

  /** Settling one source leaves the others settled. */
  lemma {:induction false} PlacedKept(before: Rows, after: Rows, slug: Name, n: SourceName, w: Want, m: SourceName,
      v: Want)
    requires SourceWritten(before, after, slug, n, w) && WantsSource(n, w)
    requires Placed(before, slug, m, v) && WantsSource(m, v) && m != n
    ensures Placed(after, slug, m, v)
  {
    var id :| Matches(before, slug, m, id) && Holds(before, SourceKey(slug, id), v);
    assert after[SourceKey(slug, id)] == before[SourceKey(slug, id)];
    assert Matches(after, slug, m, id) && Holds(after, SourceKey(slug, id), v);
    if v.status.Active? {
      forall k | k in after && k.SourceKey? && k.env == slug ensures !Claims(after[k], m.app, m.applicationName) {
        if after[k] == SourceRow(Config, n, w.config, w.status) {
          assert w.status.Active? ==> !Claims(before[SourceKey(slug, id)], n.app, n.applicationName);
        } else {
          assert after[k] == before[k];
        }
      }
    }
  }

  lemma {:induction false} FoundKept(before: Rows, after: Rows, slug: Name, n: SourceName, w: Want, m: SourceName,
      existing: map<SourceName, nat>)
    requires SourceWritten(before, after, slug, n, w) && Found(before, slug, m, existing) && m != n
    ensures Found(after, slug, m, existing)
  {
  }

  lemma {:induction false} SourcesClearedKept(before: Rows, after: Rows, slug: Name, n: SourceName, w: Want,
      names: set<SourceName>)
    requires SourceWritten(before, after, slug, n, w) && n in names
    ensures SourcesCleared(before, slug, names) ==> SourcesCleared(after, slug, names)
  {
  }

  lemma {:induction false} ListedCleared(rows: Rows, slug: Name, names: set<SourceName>, listed: set<Key>)
    requires RowsOk(rows)
    requires listed == set k | k in rows && k.SourceKey? && k.env == slug && rows[k].SourceRow? && rows[k].name in names
    ensures SourcesCleared(rows, slug, names) <==> Cleared(rows, slug, Sources, listed)
  {
    if Cleared(rows, slug, Sources, listed) {
      forall k | k in rows && k.env == slug && k.SourceKey? && rows[k].SourceRow? && rows[k].name !in names
        ensures rows[k].managed.Config? ==> Off(rows[k])
      {
        assert k !in listed && KindOf(k) == Sources;
      }
    }
  }

  lemma {:induction false} SourcesRetired(rows: Rows, slug: Name, names: set<SourceName>, listed: set<Key>, now: Time)
    requires RowsOk(rows)
    requires listed == set k | k in rows && k.SourceKey? && k.env == slug && rows[k].SourceRow? && rows[k].name in names
    ensures SourcesCleared(Without(rows, KeysOf(rows, slug, Sources) - listed, now), slug, names)
  {
    var after := Without(rows, KeysOf(rows, slug, Sources) - listed, now);
    forall k | k in after && k.env == slug && k.SourceKey? && after[k].SourceRow? && after[k].name !in names
      ensures after[k].managed.Config? ==> Off(after[k])
    {
      assert k in KeysOf(rows, slug, Sources) && k !in listed;
    }
  }

  // ------------------------------------------------------------ the phases together

  /** What a file wants of the rows, by their keys, and its order of the targets. */
  datatype Wants = Wants(
    env: Want, apps: map<Key, Want>, components: map<Key, Want>, sources: map<SourceName, Want>,
    targets: map<Key, Want>, order: seq<Key>, probes: map<Key, Want>)

  ghost predicate WantsFit(w: Wants, slug: Name) {
    && w.env.WantEnv? && Fits(w.apps, slug, Applications) && Fits(w.components, slug, Components)
    && (forall n | n in w.sources :: WantsSource(n, w.sources[n]))
    && Fits(w.targets, slug, Targets) && Fits(w.probes, slug, Assignments)
    && (forall k | k in w.probes && k.AssignKey? :: TargetKey(slug, k.target) in w.targets)
    && OneEach(w.sources.Keys) && Apart(w.targets) && Lists(w.order, w.targets)
  }

  /** What refuses the file's applications, components and sources. */
  ghost predicate ServicesBlocked(rows: Rows, slug: Name, w: Wants) {
    || Foreign(rows, EnvKey(slug)) || AnyForeign(rows, w.apps.Keys) || AnyForeign(rows, w.components.Keys)
    || SourcesBlocked(rows, slug, w.sources)
  }

  /** What refuses its targets, in their order, and its assignments. */
  ghost predicate DatabasesBlocked(rows: Rows, w: Wants, definitions: Definitions) {
    TargetsBlocked(rows, w.targets, w.order) || ProbesBlocked(rows, w.probes.Keys, w.targets, definitions)
  }

  ghost predicate Blocked(rows: Rows, slug: Name, w: Wants, definitions: Definitions) {
    ServicesBlocked(rows, slug, w) || DatabasesBlocked(rows, w, definitions)
  }

  function ServiceKinds(): set<Kind> {
    {Environments, Applications, Components, Sources}
  }

  lemma {:induction false} AppsBlockedSame(s: Rows, s0: Rows, slug: Name, w: Wants)
    requires WantsFit(w, slug) && OnlyKinds(s, s0, {Environments})
    ensures AnyForeign(s, w.apps.Keys) <==> AnyForeign(s0, w.apps.Keys)
  {
    ForeignSame(s, s0, w.apps.Keys);
  }

  lemma {:induction false} ComponentsBlockedSame(s: Rows, s0: Rows, s1: Rows, slug: Name, w: Wants)
    requires WantsFit(w, slug) && OnlyKinds(s, s0, {Environments}) && OnlyKinds(s0, s1, {Applications})
    ensures AnyForeign(s, w.components.Keys) <==> AnyForeign(s1, w.components.Keys)
  {
    OnlyKindsTwice(s, s0, s1, {Environments}, {Applications});
    ForeignSame(s, s1, w.components.Keys);
  }

  lemma {:induction false} SourcesBlockedFirst(s: Rows, s0: Rows, s1: Rows, s2: Rows, slug: Name, w: Wants)
    requires OnlyKinds(s, s0, {Environments}) && OnlyKinds(s0, s1, {Applications}) && OnlyKinds(s1, s2, {Components})
    ensures SourcesBlocked(s, slug, w.sources) <==> SourcesBlocked(s2, slug, w.sources)
  {
    forall k: Key | k.SourceKey? ensures At(s2, k) == At(s, k) {
      assert KindOf(k) == Sources;
      assert At(s0, k) == At(s, k) && At(s1, k) == At(s0, k);
    }
    SourcesBlockedSame(s, s2, slug, w.sources);
  }

  lemma {:induction false} ServicesChanged(s: Rows, s0: Rows, s1: Rows, s2: Rows, s3: Rows)
    requires OnlyKinds(s, s0, {Environments}) && OnlyKinds(s0, s1, {Applications}) && OnlyKinds(s1, s2, {Components})
    requires OnlyKinds(s2, s3, {Sources})
    ensures OnlyKinds(s, s3, ServiceKinds())
  {
    forall k | KindOf(k) !in ServiceKinds() ensures At(s3, k) == At(s, k) {
      assert At(s0, k) == At(s, k) && At(s1, k) == At(s0, k) && At(s2, k) == At(s1, k);
    }
  }

  lemma {:induction false} LastBlockedSame(s: Rows, s3: Rows, slug: Name, w: Wants, definitions: Definitions)
    requires WantsFit(w, slug) && OnlyKinds(s, s3, ServiceKinds())
    ensures DatabasesBlocked(s, w, definitions) <==> DatabasesBlocked(s3, w, definitions)
  {
    forall k | KindOf(k) in {Targets, Assignments} ensures At(s3, k) == At(s, k) {}
    forall k, j | k in w.targets
      ensures Rival(s, k, w.targets[k], j) <==> Rival(s3, k, w.targets[k], j)
    {
      if j.TargetKey? { RivalSame(s, s3, k, w.targets[k], j); }
    }
    TargetsBlockedSame(s, s3, w.targets, w.order);
    forall k | KindOf(k) == Assignments
      ensures (k in s <==> k in s3) && (k in s && k in s3 ==> s[k].managed == s3[k].managed)
    {
      assert At(s3, k) == At(s, k);
    }
    ProbesBlockedSame(s, s3, w.probes.Keys, w.targets, definitions);
  }

  ghost predicate ServicesSettled(rows: Rows, slug: Name, w: Wants) {
    && Holds(rows, EnvKey(slug), w.env) && KindSettled(rows, slug, Applications, w.apps) && AllHold(rows, w.components)
    && AllPlaced(rows, slug, w.sources) && SourcesCleared(rows, slug, w.sources.Keys)
  }

  ghost predicate DatabasesSettled(rows: Rows, slug: Name, w: Wants) {
    KindSettled(rows, slug, Targets, w.targets) && KindSettled(rows, slug, Assignments, w.probes)
  }

  ghost predicate SettledBy(rows: Rows, slug: Name, w: Wants) {
    ServicesSettled(rows, slug, w) && DatabasesSettled(rows, slug, w)
  }

  /** Nothing refuses a file whose rows are settled. */
  lemma {:induction false} SettledUnblocked(rows: Rows, slug: Name, w: Wants, definitions: Definitions)
    requires WantsFit(w, slug) && SettledBy(rows, slug, w)
    ensures !Blocked(rows, slug, w, definitions)
  {
    forall n | n in w.sources ensures !SourceBlocked(rows, slug, n, w.sources[n]) {
      assert Placed(rows, slug, n, w.sources[n]);
    }
    assert !SourcesBlocked(rows, slug, w.sources);
    DatabasesUnblocked(rows, slug, w, definitions);
  }

  lemma {:induction false} DatabasesUnblocked(rows: Rows, slug: Name, w: Wants, definitions: Definitions)
    requires WantsFit(w, slug) && DatabasesSettled(rows, slug, w)
    ensures !DatabasesBlocked(rows, w, definitions)
  {
    forall k, settled | k in w.targets ensures !TargetBlocked(rows, k, w.targets[k], settled) {
      assert Holds(rows, k, w.targets[k]);
    }
    forall k | k in w.probes ensures k in rows && !Foreign(rows, k) {
      assert Holds(rows, k, w.probes[k]);
    }
  }

  lemma {:induction false} HostedBy(rows: Rows, w: Wants, slug: Name)
    requires WantsFit(w, slug) && AllHold(rows, w.targets)
    ensures Hosted(rows, w.probes, w.targets)
  {
    forall k | k in w.probes && k.AssignKey?
      ensures Hosts(rows, TargetKey(k.env, k.target), EngineWanted(w.targets, k))
    {
      assert Holds(rows, TargetKey(slug, k.target), w.targets[TargetKey(slug, k.target)]);
    }
  }

  lemma {:induction false} HoldKept(before: Rows, after: Rows, slug: Name, kind: Kind, wants: map<Key, Want>,
      kinds: set<Kind>)
    requires OnlyKinds(before, after, kinds) && kind !in kinds && Fits(wants, slug, kind)
    ensures AllHold(before, wants) ==> AllHold(after, wants)
    ensures KindSettled(before, slug, kind, wants) ==> KindSettled(after, slug, kind, wants)
  {
    if AllHold(before, wants) { AllHoldKept(before, after, wants); }
    if Cleared(before, slug, kind, wants.Keys) { ClearedKept(before, after, slug, kind, wants.Keys); }
  }

  lemma {:induction false} SourcesKept(before: Rows, after: Rows, slug: Name, wants: map<SourceName, Want>,
      kinds: set<Kind>)
    requires OnlyKinds(before, after, kinds) && Sources !in kinds
    requires AllPlaced(before, slug, wants) && SourcesCleared(before, slug, wants.Keys)
    ensures AllPlaced(after, slug, wants) && SourcesCleared(after, slug, wants.Keys)
  {
    forall k: Key | k.SourceKey? ensures At(after, k) == At(before, k) {
      assert KindOf(k) == Sources;
    }
    forall k | k in after && k.env == slug && k.SourceKey? && after[k].SourceRow? && after[k].name !in wants.Keys
      ensures after[k].managed.Config? ==> Off(after[k])
    {
      assert At(after, k) == At(before, k);
    }
    forall n | n in wants ensures Placed(after, slug, n, wants[n]) {
      PlacedElsewhere(before, after, slug, n, wants[n]);
    }
  }

  lemma {:induction false} PlacedElsewhere(before: Rows, after: Rows, slug: Name, n: SourceName, w: Want)
    requires Placed(before, slug, n, w) && forall k: Key :: k.SourceKey? ==> At(after, k) == At(before, k)
    ensures Placed(after, slug, n, w)
  {
    var id :| Matches(before, slug, n, id) && Holds(before, SourceKey(slug, id), w);
    assert At(after, SourceKey(slug, id)) == At(before, SourceKey(slug, id));
    forall k | k in after && k.SourceKey? ensures k in before && after[k] == before[k] {
      assert At(after, k) == At(before, k);
    }
    assert Matches(after, slug, n, id) && Holds(after, SourceKey(slug, id), w);
  }

  lemma {:induction false} AppliedElsewhere(before: Rows, after: Rows, kinds: set<Kind>)
    requires OnlyKinds(before, after, kinds) && Targets !in kinds && Assignments !in kinds
    ensures AppliedStands(before, after)
  {
    forall k | k in after && k.AssignKey? && after[k].AssignRow? && after[k].state.Applied?
      ensures At(before, k) == Some(after[k]) && ConnectionOf(before, k) == ConnectionOf(after, k)
    {
      assert At(after, k) == At(before, k);
      assert At(after, TargetKey(k.env, k.target)) == At(before, TargetKey(k.env, k.target));
    }
  }

  /** What each phase settled, the later ones leave settled. */
  lemma {:induction false} PhasesSettle(s0: Rows, s1: Rows, s2: Rows, s3: Rows, slug: Name, w: Wants)
    requires WantsFit(w, slug)
    requires OnlyKinds(s0, s1, {Applications}) && OnlyKinds(s1, s2, {Components}) && OnlyKinds(s2, s3, {Sources})
    requires Holds(s0, EnvKey(slug), w.env) && KindSettled(s1, slug, Applications, w.apps) && AllHold(s2, w.components)
    requires AllPlaced(s3, slug, w.sources) && SourcesCleared(s3, slug, w.sources.Keys)
    ensures ServicesSettled(s3, slug, w)
  {
    assert At(s3, EnvKey(slug)) == At(s2, EnvKey(slug)) == At(s1, EnvKey(slug)) == At(s0, EnvKey(slug));
    OnlyKindsTwice(s1, s2, s3, {Components}, {Sources});
    HoldKept(s1, s3, slug, Applications, w.apps, {Components} + {Sources});
    HoldKept(s2, s3, slug, Components, w.components, {Sources});
  }

  lemma {:induction false} ServicesKept(before: Rows, after: Rows, slug: Name, w: Wants, kinds: set<Kind>)
    requires WantsFit(w, slug) && OnlyKinds(before, after, kinds) && kinds !! ServiceKinds()
    requires ServicesSettled(before, slug, w)
    ensures ServicesSettled(after, slug, w)
  {
    assert At(after, EnvKey(slug)) == At(before, EnvKey(slug));
    HoldKept(before, after, slug, Applications, w.apps, kinds);
    HoldKept(before, after, slug, Components, w.components, kinds);
    SourcesKept(before, after, slug, w.sources, kinds);
  }

  lemma {:induction false} OnlyKindsTwice(a: Rows, b: Rows, c: Rows, first: set<Kind>, second: set<Kind>)
    requires OnlyKinds(a, b, first) && OnlyKinds(b, c, second)
    ensures OnlyKinds(a, c, first + second)
  {
    forall k | KindOf(k) !in first + second ensures At(c, k) == At(a, k) {
      assert At(b, k) == At(a, k);
    }
  }
}
