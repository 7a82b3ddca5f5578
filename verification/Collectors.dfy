/**
  Collector configurations, their difference, and the collector lifecycle as a reload sees it.
*/
module Collectors {
  import opened Basics

  type Id = nat
  type Kind = nat
  type Spec = nat

  datatype Collector = Collector(id: Id, kind: Kind, enabled: bool, spec: Spec)

  /** Collectors by their ID. */
  type Table = map<Id, Collector>

  predicate Wanted(c: Collector, kinds: set<Kind>) {
    c.enabled && c.kind in kinds
  }

  /** The enabled collectors of the given kinds. */
  function Desired(cs: seq<Collector>, kinds: set<Kind>): Table {
    if cs == [] then map[]
    else
      var rest, last := Desired(cs[..|cs| - 1], kinds), cs[|cs| - 1];
      if Wanted(last, kinds) then rest[last.id := last] else rest
  }

  predicate WellKeyed(t: Table, kinds: set<Kind>) {
    forall id | id in t :: t[id].id == id && Wanted(t[id], kinds)
  }

  lemma {:induction false} DesiredWellKeyed(cs: seq<Collector>, kinds: set<Kind>)
    ensures WellKeyed(Desired(cs, kinds), kinds)
  {
    if cs != [] { DesiredWellKeyed(cs[..|cs| - 1], kinds); }
  }

  method CollectorsById(cs: seq<Collector>, kinds: set<Kind>) returns (t: Table)
    ensures t == Desired(cs, kinds)
  {
    t := map[];
    for i := 0 to |cs|
      invariant t == Desired(cs[..i], kinds)
    {
      assert cs[..i + 1][..i] == cs[..i];
      if Wanted(cs[i], kinds) { t := t[cs[i].id := cs[i]]; }
    }
    assert cs[..|cs|] == cs;
  }

  // ------------------------------------------------------------ differences

  datatype Diff = Diff(added: seq<Collector>, updated: seq<Collector>, removed: seq<Id>, same: seq<Id>, previous: Table)

  function Ids(cs: seq<Collector>): set<Id> {
    set c | c in cs :: c.id
  }

  function Named(ids: seq<Id>): set<Id> {
    set id | id in ids
  }

  predicate DistinctIds(cs: seq<Collector>) {
    forall i, j | 0 <= i < j < |cs| :: cs[i].id != cs[j].id
  }

  predicate Distinct(ids: seq<Id>) {
    forall i, j | 0 <= i < j < |ids| :: ids[i] != ids[j]
  }

  /**
    A plan that takes old to new: what is only in new is added, what is only in old removed, and
    what is in both is updated unless it is the same and left alone.  Each ID is named once.
  */
  ghost predicate IsPlan(d: Diff, prior: Table, target: Table) {
    && d.previous == prior
    && Ids(d.added) == target.Keys - prior.Keys
    && Named(d.removed) == prior.Keys - target.Keys
    && Ids(d.updated) !! Named(d.same)
    && Ids(d.updated) + Named(d.same) == prior.Keys * target.Keys
    && (forall c | c in d.added :: c.id in target && target[c.id] == c)
    && (forall c | c in d.updated :: c.id in target && target[c.id] == c)
    && (forall id | id in d.same :: id in prior && id in target && prior[id] == target[id])
    && DistinctIds(d.added) && DistinctIds(d.updated) && Distinct(d.removed) && Distinct(d.same)
  }

  /** The diff of two configurations; the maps are walked in any order. */
  method DiffCollectors(previous: seq<Collector>, next: seq<Collector>, kinds: set<Kind>) returns (d: Diff)
    ensures IsPlan(d, Desired(previous, kinds), Desired(next, kinds))
    ensures forall c | c in d.updated :: c.id in d.previous && d.previous[c.id] != c
  {
    var prior := CollectorsById(previous, kinds);
    var target := CollectorsById(next, kinds);
    DesiredWellKeyed(next, kinds);
    var added: seq<Collector>, updated: seq<Collector>, same: seq<Id> := [], [], [];
    var left := target.Keys;
    while left != {}
      invariant left <= target.Keys
      invariant Ids(added) == target.Keys - prior.Keys - left
      invariant Ids(updated) !! Named(same)
      invariant Ids(updated) + Named(same) == target.Keys * prior.Keys - left
      invariant forall c | c in added :: c.id in target && target[c.id] == c
      invariant forall c | c in updated :: c.id in target && target[c.id] == c && c.id in prior && prior[c.id] != c
      invariant forall id | id in same :: id in target && id in prior && prior[id] == target[id]
      invariant DistinctIds(added) && DistinctIds(updated) && Distinct(same)
    {
      var id :| id in left;
      var c := target[id];
      if id !in prior {
        IdsPush(added, c);
        added := added + [c];
      } else if prior[id] == c {
        IdPush(same, id);
        same := same + [id];
      } else {
        IdsPush(updated, c);
        updated := updated + [c];
      }
      left := left - {id};
    }
    var removed := RemovedIds(prior, target);
    d := Diff(added, updated, removed, same, prior);
  }

  /** The IDs that only the old configuration has. */
  method RemovedIds(prior: Table, target: Table) returns (removed: seq<Id>)
    ensures Named(removed) == prior.Keys - target.Keys && Distinct(removed)
  {
    removed := [];
    var left := prior.Keys;
    while left != {}
      invariant left <= prior.Keys
      invariant Named(removed) == prior.Keys - target.Keys - left
      invariant Distinct(removed)
    {
      var id :| id in left;
      if id !in target {
        IdPush(removed, id);
        removed := removed + [id];
      }
      left := left - {id};
    }
  }

  lemma {:induction false} IdsPush(cs: seq<Collector>, c: Collector)
    ensures Ids(cs + [c]) == Ids(cs) + {c.id}
    ensures DistinctIds(cs) && c.id !in Ids(cs) ==> DistinctIds(cs + [c])
  {
    forall d | d in cs ensures d in cs + [c] {}
    assert c in cs + [c];
    if DistinctIds(cs) && c.id !in Ids(cs) {
      forall i, j | 0 <= i < j < |cs + [c]| ensures (cs + [c])[i].id != (cs + [c])[j].id {
        assert cs[i] in cs;
      }
    }
  }

  lemma {:induction false} IdPush(ids: seq<Id>, id: Id)
    ensures Named(ids + [id]) == Named(ids) + {id}
    ensures Distinct(ids) && id !in ids ==> Distinct(ids + [id])
  {
    forall x | x in ids ensures x in ids + [id] {}
    assert id in ids + [id];
  }

  // ------------------------------------------------------------ the lifecycle, one ID at a time

  /**
    What an entry is doing.  A live one is supervised and not cancelled; it may be in crash
    backoff or failed, which is not healthy.  A stuck one is cancelled and has not exited: when
    it does, its registration goes if it was stopping and stays otherwise.  An ending one has
    exited and stays registered, but whoever waits for it is not told yet; a dead one is done.
  */
  datatype Stage = Live(healthy: bool) | Stuck(stopping: bool) | Ending | Dead
  datatype Slot = Slot(collector: Collector, stage: Stage)
  type Slots = map<Id, Slot>

  datatype Call = Start(c: Collector) | Update(c: Collector) | Drain(of: Id) | Stop(of: Id) | Refuse(of: Id) {
    function Id(): nat {
      if Start? || Update? then c.id else of
    }
  }

  /** How the wait for an old poller ends. */
  datatype Luck = InTime | Late

  function Running(s: Slots): Table {
    map id | id in s && s[id].stage.Live? :: s[id].collector
  }

  function Registered(s: Slots): Table {
    map id | id in s :: s[id].collector
  }

  /** The collector running under the ID. */
  function Runs(s: Slots, id: Id): Option<Collector> {
    if id in s && s[id].stage.Live? then Some(s[id].collector) else None
  }

  predicate Kept(s: Slots, kinds: set<Kind>) {
    forall id | id in s :: s[id].collector.id == id && Wanted(s[id].collector, kinds)
  }

  predicate Exited(stage: Stage) {
    stage.Ending? || stage.Dead?
  }

  /** Crashes, restarts and exits between calls. */
  predicate Drifted(s: Slots, t: Slots) {
    && (forall id | id in t :: id in s && t[id].collector == s[id].collector)
    && (forall id | id in s ::
          match s[id].stage
          case Live(_) => id in t && t[id].stage.Live?
          case Stuck(stopping) => if id in t then t[id] == s[id] || (!stopping && Exited(t[id].stage)) else stopping
          case Ending => id in t && Exited(t[id].stage)
          case Dead => id in t && t[id] == s[id])
  }

  lemma {:induction false} DriftedRuns(s: Slots, t: Slots, id: Id)
    requires Drifted(s, t)
    ensures Runs(t, id) == Runs(s, id)
  {
  }

  lemma {:induction false} DriftedBack(s: Slots)
    ensures Drifted(s, s)
  {
  }

  lemma {:induction false} DriftedTwice(s: Slots, t: Slots, u: Slots)
    requires Drifted(s, t) && Drifted(t, u)
    ensures Drifted(s, u)
  {
  }

  datatype Done = Done(slots: Slots, ok: bool)

  function Drained(stage: Stage): Stage {
    match stage
    case Live(_) => Live(false)
    case Stuck(_) => Stuck(false)
    case _ => stage
  }

  /** What a call of an open lifecycle does to its own ID, given how its wait ends. */
  function Do(s: Slots, call: Call, luck: Luck): Done {
    var id := call.Id();
    match call
    case Start(c) => Replace(s, c, luck)
    case Update(c) => Replace(s, c, luck)
    case Drain(_) =>
      if id !in s then Done(s, true)
      else Done(s[id := s[id].(stage := Drained(s[id].stage))], true)
    case Stop(_) =>
      if id !in s || s[id].stage.Dead? then Done(s, true)  // an exited entry stays registered
      else if luck.Late? then Done(s[id := s[id].(stage := GivenUp(s[id].stage, true))], false)
      else if s[id].stage.Ending? then Done(s[id := s[id].(stage := Dead)], true)
      else Done(s - {id}, true)
    case Refuse(_) => Done(s, false)
  }

  /** Starts c; what ran under its ID is cancelled and awaited first. */
  function Replace(s: Slots, c: Collector, luck: Luck): Done {
    if c.id !in s || s[c.id].stage.Dead? || luck.InTime? then Done(s[c.id := Slot(c, Live(true))], true)
    else Done(s[c.id := s[c.id].(stage := GivenUp(s[c.id].stage, false))], false)
  }

  /** Cancelled, and not awaited to the end. */
  function GivenUp(stage: Stage, stopping: bool): Stage {
    if Exited(stage) then stage else Stuck(stopping)
  }

  /** What a run of calls on one ID is to leave running there. */
  function Goal(calls: seq<Call>): Option<Collector>
    requires calls != []
  {
    match calls[|calls| - 1]
    case Start(c) => Some(c)
    case Update(c) => Some(c)
    case _ => None
  }

  /** Nothing is to be waited for under the ID: it is free, or its poller is done. */
  predicate Inert(s: Slots, id: Id) {
    id !in s || s[id].stage.Dead?
  }

  /**
    What the call was to do, and nothing under another ID; it cannot fail where nothing is to be
    waited for, a drain leaves running what runs, and a stop of it frees the ID.
  */
  ghost predicate Performed(s: Slots, t: Slots, call: Call, ok: bool) {
    && (ok && !call.Drain? ==> !call.Refuse? && Runs(t, call.Id()) == Goal([call]))
    && (Inert(s, call.Id()) && !call.Refuse? ==> ok)
    && (call.Drain? ==> Runs(t, call.Id()) == Runs(s, call.Id()) && (Inert(s, call.Id()) ==> Inert(t, call.Id())))
    && (call.Stop? && ok && Runs(s, call.Id()).Some? ==> call.Id() !in t)
    && Beside({call.Id()}, s, t)
  }

  /** Other IDs run what they ran, and what was inert or free there is so still. */
  ghost predicate Beside(ids: set<Id>, s: Slots, t: Slots) {
    forall id | id !in ids ::
      Runs(t, id) == Runs(s, id) && (Inert(s, id) ==> Inert(t, id)) && (id !in s ==> id !in t)
  }

  /**
    The contract of an open lifecycle: a call that succeeds leaves running under its ID what it
    was asked to, no call changes what runs under another ID, and what is done or free fails no
    call.
  */
  lemma {:induction false} LifecycleContract(s: Slots, call: Call, luck: Luck)
    ensures var d := Do(s, call, luck); Performed(s, d.slots, call, d.ok)
  {
  }

  lemma {:induction false} DriftedBeside(s: Slots, t: Slots)
    requires Drifted(s, t)
    ensures Beside({}, s, t)
  {
  }

  // ------------------------------------------------------------ shutdown

  predicate NoneLive(s: Slots) {
    forall id | id in s :: !s[id].stage.Live?
  }

  /** A shutdown cancels every entry, to stop it. */
  function CancelAll(s: Slots): Slots {
    map id | id in s :: s[id].(stage := GivenUp(s[id].stage, true))
  }

  lemma {:induction false} DoKeeps(s: Slots, call: Call, luck: Luck, kinds: set<Kind>)
    requires Kept(s, kinds) && (call.Start? || call.Update? ==> Wanted(call.c, kinds))
    ensures Kept(Do(s, call, luck).slots, kinds)
  {
  }
}
