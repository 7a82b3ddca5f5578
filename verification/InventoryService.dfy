/**
  Applying an inventory file, as the service does it: all of it, or nothing.
*/
module InventoryService {
  import opened Basics
  import opened InventoryTypes
  import opened Inventory
  import opened Refusals
  import opened ApplyFile

  // ------------------------------------------------------------ what the file wants, by key

  function AppWants(f: File): map<Key, Want>
    requires Parsed(f)
  {
    map a | a in f.applications :: AppKey(f.slug, a.name) := AppWant(a)
  }

  function ComponentWants(f: File): map<Key, Want>
    requires Parsed(f)
  {
    map a, c | a in f.applications && c in a.components ::
      ComponentKey(f.slug, a.name, c.name, c.kind) := WantComponent(c.details)
  }

  function SourceWants(f: File): map<SourceName, Want>
    requires Parsed(f)
  {
    map a, s | a in f.applications && s in a.sources :: NameOf(a.name, s) := SourceWant(a.name, s)
  }

  function TargetWants(f: File): map<Key, Want>
    requires Parsed(f)
  {
    map t | t in f.targets :: TargetKey(f.slug, t.name) := TargetWant(t)
  }

  function TargetOrder(f: File): seq<Key> {
    seq(|f.targets|, i requires 0 <= i < |f.targets| => TargetKey(f.slug, f.targets[i].name))
  }

  function ProbeWants(f: File): map<Key, Want>
    requires Parsed(f)
  {
    map t, p | t in f.targets && p in t.probes :: AssignKey(f.slug, t.name, p.name) := WantProbe(p.policy)
  }

  function WantsOf(f: File): Wants
    requires Parsed(f)
  {
    Wants(EnvWant(f), AppWants(f), ComponentWants(f), SourceWants(f), TargetWants(f), TargetOrder(f),
      ProbeWants(f))
  }

  lemma {:induction false} AppWantsSettled(f: File, rows: Rows)
    requires Parsed(f)
    ensures Fits(AppWants(f), f.slug, Applications)
    ensures KindSettled(rows, f.slug, Applications, AppWants(f)) <==> AppsSettled(rows, f)
  {
    assert AppWants(f).Keys == AppKeys(f);
    forall a | a in f.applications ensures AppWants(f)[AppKey(f.slug, a.name)] == AppWant(a) {}
  }

  /** An application is known by its name, and a component of it by its name and kind. */
  lemma {:induction false} SameComponent(f: File, a: FileApplication, c: FileComponent, b: FileApplication,
      d: FileComponent)
    requires Parsed(f) && a in f.applications && c in a.components && b in f.applications && d in b.components
    requires a.name == b.name && c.name == d.name && c.kind == d.kind
    ensures a == b && c == d
  {
    assert ParsedApplication(a);
  }

  lemma {:induction false} ComponentWant(f: File, a: FileApplication, c: FileComponent)
    requires Parsed(f) && a in f.applications && c in a.components
    ensures ComponentKey(f.slug, a.name, c.name, c.kind) in ComponentWants(f)
    ensures ComponentWants(f)[ComponentKey(f.slug, a.name, c.name, c.kind)] == WantComponent(c.details)
  {
    var wants, k := ComponentWants(f), ComponentKey(f.slug, a.name, c.name, c.kind);
    assert k in wants;
    var b, d :| b in f.applications && d in b.components && k == ComponentKey(f.slug, b.name, d.name, d.kind)
      && wants[k] == WantComponent(d.details);
    SameComponent(f, a, c, b, d);
  }

  lemma {:induction false} ComponentWantsSettled(f: File, rows: Rows)
    requires Parsed(f)
    ensures Fits(ComponentWants(f), f.slug, Components)
    ensures AllHold(rows, ComponentWants(f)) <==> ComponentsSettled(rows, f)
  {
    forall a, c | a in f.applications && c in a.components
      ensures ComponentKey(f.slug, a.name, c.name, c.kind) in ComponentWants(f)
      ensures ComponentWants(f)[ComponentKey(f.slug, a.name, c.name, c.kind)] == WantComponent(c.details)
    {
      ComponentWant(f, a, c);
    }
  }

  lemma {:induction false} SourceWantOf(f: File, a: FileApplication, s: FileSource)
    requires Parsed(f) && a in f.applications && s in a.sources
    ensures NameOf(a.name, s) in SourceWants(f) && SourceWants(f)[NameOf(a.name, s)] == SourceWant(a.name, s)
  {
  }

  lemma {:induction false} SourceWantsNames(f: File)
    requires Parsed(f)
    ensures SourceWants(f).Keys == SourceNames(f)
  {
  }

  lemma {:induction false} SourceWantsSettled(f: File, rows: Rows)
    requires Parsed(f)
    ensures forall n | n in SourceWants(f) :: WantsSource(n, SourceWants(f)[n])
    ensures AllPlaced(rows, f.slug, SourceWants(f)) && SourcesCleared(rows, f.slug, SourceWants(f).Keys) <==>
      SourcesSettled(rows, f)
  {
    assert SourceWants(f).Keys == SourceNames(f);
    forall a, s | a in f.applications && s in a.sources
      ensures NameOf(a.name, s) in SourceWants(f)
      ensures Placed(rows, f.slug, NameOf(a.name, s), SourceWants(f)[NameOf(a.name, s)]) <==>
        SourceSettled(rows, f.slug, a.name, s)
    {
      SourceWantOf(f, a, s);
    }
  }

  lemma {:induction false} TargetWantOf(f: File, t: FileTarget)
    requires Parsed(f) && t in f.targets
    ensures TargetKey(f.slug, t.name) in TargetWants(f) && TargetWants(f)[TargetKey(f.slug, t.name)] == TargetWant(t)
  {
    var wants, k := TargetWants(f), TargetKey(f.slug, t.name);
    assert k in wants;
    var u :| u in f.targets && k == TargetKey(f.slug, u.name) && wants[k] == TargetWant(u);
  }

  lemma {:induction false} TargetWantsSettled(f: File, rows: Rows)
    requires Parsed(f)
    ensures Fits(TargetWants(f), f.slug, Targets)
    ensures KindSettled(rows, f.slug, Targets, TargetWants(f)) <==> TargetsSettled(rows, f)
  {
    assert TargetWants(f).Keys == TargetKeys(f);
    forall t | t in f.targets
      ensures TargetKey(f.slug, t.name) in TargetWants(f) && TargetWants(f)[TargetKey(f.slug, t.name)] == TargetWant(t)
    {
      TargetWantOf(f, t);
    }
  }

  lemma {:induction false} TargetsApart(f: File)
    requires Parsed(f)
    ensures Apart(TargetWants(f))
  {
    var wants := TargetWants(f);
    forall k | k in wants
      ensures exists t :: t in f.targets && k == TargetKey(f.slug, t.name) && wants[k] == TargetWant(t)
    {
      var t :| t in f.targets && k == TargetKey(f.slug, t.name);
    }
  }

  /** A target is known by its name, and a probe of it by its own. */
  lemma {:induction false} SameProbe(f: File, t: FileTarget, p: FileProbe, u: FileTarget, q: FileProbe)
    requires Parsed(f) && t in f.targets && p in t.probes && u in f.targets && q in u.probes
    requires t.name == u.name && p.name == q.name
    ensures t == u && p == q
  {
    assert ParsedTarget(t);
  }

  lemma {:induction false} ProbeWant(f: File, t: FileTarget, p: FileProbe)
    requires Parsed(f) && t in f.targets && p in t.probes
    ensures AssignKey(f.slug, t.name, p.name) in ProbeWants(f)
    ensures ProbeWants(f)[AssignKey(f.slug, t.name, p.name)] == WantProbe(p.policy)
  {
    var wants, k := ProbeWants(f), AssignKey(f.slug, t.name, p.name);
    assert k in wants;
    var u, q :| u in f.targets && q in u.probes && k == AssignKey(f.slug, u.name, q.name)
      && wants[k] == WantProbe(q.policy);
    SameProbe(f, t, p, u, q);
  }

  lemma {:induction false} ProbeWantsKeys(f: File)
    requires Parsed(f)
    ensures ProbeWants(f).Keys == ProbeKeys(f)
  {
  }

  lemma {:induction false} ProbeKeyOf(f: File, k: Key)
    requires Parsed(f) && k in ProbeWants(f)
    ensures k.AssignKey? && k.env == f.slug && ProbeWants(f)[k].WantProbe?
      && TargetKey(f.slug, k.target) in TargetWants(f)
  {
    var t, p :| t in f.targets && p in t.probes && k == AssignKey(f.slug, t.name, p.name);
    ProbeWant(f, t, p);
  }

  lemma {:induction false} ProbeWantsFit(f: File)
    requires Parsed(f)
    ensures Fits(ProbeWants(f), f.slug, Assignments)
    ensures forall k | k in ProbeWants(f) && k.AssignKey? :: TargetKey(f.slug, k.target) in TargetWants(f)
  {
    forall k | k in ProbeWants(f)
      ensures k.env == f.slug && KindOf(k) == Assignments == KindOfWant(ProbeWants(f)[k])
      ensures k.AssignKey? ==> TargetKey(f.slug, k.target) in TargetWants(f)
    {
      ProbeKeyOf(f, k);
    }
  }

  lemma {:induction false} ProbeWantsSettled(f: File, rows: Rows)
    requires Parsed(f)
    ensures KindSettled(rows, f.slug, Assignments, ProbeWants(f)) <==> ProbesSettled(rows, f)
  {
    ProbeWantsKeys(f);
    forall t, p | t in f.targets && p in t.probes
      ensures AssignKey(f.slug, t.name, p.name) in ProbeWants(f)
      ensures ProbeWants(f)[AssignKey(f.slug, t.name, p.name)] == WantProbe(p.policy)
    {
      ProbeWant(f, t, p);
    }
  }

  lemma {:induction false} OrderLists(f: File)
    requires Parsed(f)
    ensures Lists(TargetOrder(f), TargetWants(f))
  {
    var order, wants := TargetOrder(f), TargetWants(f);
    forall i | 0 <= i < |order| ensures order[i] in wants && order[i] !in order[..i] {
      assert f.targets[i] in f.targets;
    }
    forall k | k in wants ensures k in order {
      var t :| t in f.targets && k == TargetKey(f.slug, t.name);
      var i :| 0 <= i < |f.targets| && f.targets[i] == t;
      assert order[i] == k;
    }
  }

  lemma {:induction false} KeysFit(f: File)
    requires Parsed(f)
    ensures OneEach(WantsOf(f).sources.Keys) && Apart(WantsOf(f).targets) && Lists(TargetOrder(f), TargetWants(f))
  {
    OrderLists(f);
    SourceWantsNames(f);
    TargetsApart(f);
  }

  lemma {:induction false} WantsSettled(f: File, rows: Rows)
    requires Parsed(f)
    ensures WantsFit(WantsOf(f), f.slug)
    ensures SettledBy(rows, f.slug, WantsOf(f)) <==> Settled(rows, f)
  {
    AppWantsSettled(f, rows);
    ComponentWantsSettled(f, rows);
    SourceWantsSettled(f, rows);
    TargetWantsSettled(f, rows);
    KeysFit(f);
    ProbeWantsFit(f);
    ProbeWantsSettled(f, rows);
  }

  // ------------------------------------------------------------ the service

  /** The rows the file names by their keys. */
  predicate Names(f: File, k: Key) {
    k == EnvKey(f.slug) || k in AppKeys(f) || k in ComponentKeys(f) || k in TargetKeys(f) || k in ProbeKeys(f)
  }

  /** No row is the API's that the file names, or that one of its sources is matched to. */
  ghost predicate AllOwn(rows: Rows, f: File) {
    && (forall k | Names(f, k) && k in rows :: rows[k].managed.Config?)
    && (forall n, id | n in SourceNames(f) && Matches(rows, f.slug, n, id) ::
          rows[SourceKey(f.slug, id)].managed.Config?)
  }

  lemma {:induction false} UnblockedTarget(rows: Rows, wants: map<Key, Want>, order: seq<Key>, k: Key)
    requires Lists(order, wants) && k in wants && !TargetsBlocked(rows, wants, order)
    ensures !Foreign(rows, k)
  {
    var i :| 0 <= i < |order| && order[i] == k;
    assert !TargetBlocked(rows, order[i], wants[order[i]], order[..i]);
  }

  lemma {:induction false} UnblockedAllOwn(f: File, rows: Rows, definitions: Definitions)
    requires Parsed(f) && !Blocked(rows, f.slug, WantsOf(f), definitions)
    ensures AllOwn(rows, f)
  {
    var w := WantsOf(f);
    assert AppKeys(f) == w.apps.Keys && ComponentKeys(f) == w.components.Keys && TargetKeys(f) == w.targets.Keys;
    ProbeWantsKeys(f);
    SourceWantsNames(f);
    OrderLists(f);
    forall k | k in w.targets ensures !Foreign(rows, k) {
      UnblockedTarget(rows, w.targets, w.order, k);
    }
    forall k | k in w.probes ensures !Foreign(rows, k) {
      ProbeKeyOf(f, k);
      assert !ProbeBlocked(rows, k, EngineWanted(w.targets, k), definitions);
    }
    forall k | Names(f, k) ensures !Foreign(rows, k) {}
    forall n, id | n in SourceNames(f) && Matches(rows, f.slug, n, id) ensures !Foreign(rows, SourceKey(f.slug, id)) {
      assert !SourceBlocked(rows, f.slug, n, w.sources[n]);
    }
  }

  /** The records added to the audit log are a chain of changes that leads from the rows before to those after. */
  ghost predicate Audited(before: Rows, after: Rows, logBefore: seq<Record>, logAfter: seq<Record>,
      records: seq<Record>) {
    logAfter == logBefore + records && Chained(before, records) && after == Replay(before, records)
  }

  class Store {
    var rows: Rows
    var audit: seq<Record>

    constructor ()
      ensures rows == map[] && audit == []
    {
      rows, audit := map[], [];
    }

    /** The transaction: the phases, then the check of the rendered collectors when anything changed. */
    method Transact(w: Wants, slug: Name, now: Time, definitions: Definitions, renders: bool)
        returns (r: Option<nat>, ghost records: seq<Record>)
      requires RowsOk(rows) && WantsFit(w, slug)
      modifies this
      ensures RowsOk(rows)
      ensures r.None? ==> rows == old(rows) && audit == old(audit)
      ensures r.Some? ==> SettledBy(rows, slug, w) && Respects(old(rows), rows, slug) && AppliedStands(old(rows), rows)
      ensures r.Some? ==> Audited(old(rows), rows, old(audit), audit, records) && |records| == r.value
      ensures r.None? <==> Blocked(old(rows), slug, w, definitions) || (!renders && !SettledBy(old(rows), slug, w))
      ensures SettledBy(old(rows), slug, w) ==> r == Some(0) && rows == old(rows) && audit == old(audit)
    {
      var a := new Applier(slug, now, definitions, rows);
      var ok := a.Apply(w);
      records := a.log;
      if SettledBy(rows, slug, w) { SettledUnblocked(rows, slug, w, definitions); }
      if !ok || (a.changes > 0 && !renders) { return None, records; }
      OwnedRespects(rows, a.log, slug);
      rows, audit := a.rows, audit + a.log;
      r := Some(a.changes);
    }

    /**
      Applies the file in one transaction and answers how many changes that took; refused, it
      changes nothing.  It is refused for what it names that the API manages or others hold, and
      when it changes something and the collectors would refuse the render.
    */
    method ApplyFile(f: File, now: Time, definitions: Definitions, renders: bool) returns (r: Option<nat>)
      requires RowsOk(rows) && Parsed(f)
      modifies this
      ensures RowsOk(rows)
      ensures r.None? ==> rows == old(rows) && audit == old(audit)
      ensures r.Some? ==> Settled(rows, f) && Respects(old(rows), rows, f.slug) && AppliedStands(old(rows), rows)
      ensures r.Some? ==> exists records :: Audited(old(rows), rows, old(audit), audit, records) && |records| == r.value
      ensures r.Some? ==> AllOwn(old(rows), f)
      ensures r.None? <==>
        Blocked(old(rows), f.slug, WantsOf(f), definitions) || (!renders && !Settled(old(rows), f))
      ensures Settled(old(rows), f) ==> r == Some(0) && rows == old(rows) && audit == old(audit)
    {
      WantsSettled(f, rows);
      ghost var records;
      r, records := Transact(WantsOf(f), f.slug, now, definitions, renders);
      WantsSettled(f, rows);
      if r.Some? { UnblockedAllOwn(f, old(rows), definitions); }
    }

    /** Applying the same file again makes no change. */
    method ApplyTwice(f: File, now: Time, later: Time, definitions: Definitions, renders: bool, rendersLater: bool)
      returns (first: Option<nat>, second: Option<nat>)
      requires RowsOk(rows) && Parsed(f)
      modifies this
      ensures first.Some? ==> second == Some(0)
    {
      first := ApplyFile(f, now, definitions, renders);
      second := ApplyFile(f, later, definitions, rendersLater);
    }
  }
}
