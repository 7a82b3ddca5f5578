/**
  Every step of the approval machine keeps its invariant: one fact at a time, and for each the
  steps in groups, to keep every proof small.
*/
module ApprovalSteps {
  import opened Basics
  import opened InventoryTypes
  import opened Approvals

  // ------------------------------------------------------------ a file applied to a target

  lemma {:induction false} FiledSame(s: State, t: TargetId, wants: map<Name, Policy>, created: map<Id, DefId>,
      moved: bool, id: Id)
    requires t in s.targets && CreatedFits(s, t, wants, created) && id in s.assignments
    ensures var after := FileAll(s, t, wants, created, moved);
      id in after && after[id].definition == s.assignments[id].definition
        && after[id].target == s.assignments[id].target
  {
  }

  /** What is enabled on the target afterwards, the file wants so. */
  lemma {:induction false} FiledOn(s: State, t: TargetId, wants: map<Name, Policy>, created: map<Id, DefId>,
      moved: bool, id: Id)
    requires t in s.targets && CreatedFits(s, t, wants, created)
    requires RefsOk(s.definitions, s.targets, s.assignments) && ManagersOk(s.targets, s.assignments)
      && s.targets[t].managed.Config?
    requires id in FileAll(s, t, wants, created, moved) && FileAll(s, t, wants, created, moved)[id].target == t
    requires FileAll(s, t, wants, created, moved)[id].policy.enabled
    ensures exists n :: n in wants && FileAll(s, t, wants, created, moved)[id].policy == wants[n]
  {
    if id in created {
      assert s.definitions[created[id]].name in wants;
    } else {
      assert s.definitions[s.assignments[id].definition].name in wants;
    }
  }

  lemma {:induction false} ProbesFiled(s: State, t: TargetId, wants: map<Name, Policy>, created: map<Id, DefId>,
      moved: bool)
    requires t in s.targets && CreatedFits(s, t, wants, created)
    requires RefsOk(s.definitions, s.targets, s.assignments) && ProbesOk(s.definitions, s.assignments)
    ensures ProbesOk(s.definitions, FileAll(s, t, wants, created, moved))
  {
    var after := FileAll(s, t, wants, created, moved);
    forall i, j | i in after && j in after && i != j && after[i].target == after[j].target
      && after[i].definition in s.definitions && after[j].definition in s.definitions
      ensures ProbeOf(s.definitions[after[i].definition]) != ProbeOf(s.definitions[after[j].definition])
    {
      if i in s.assignments { FiledSame(s, t, wants, created, moved, i); }
      if j in s.assignments { FiledSame(s, t, wants, created, moved, j); }
    }
  }

  lemma {:induction false} IntervalsFiled(s: State, t: TargetId, wants: map<Name, Policy>, created: map<Id, DefId>,
      moved: bool)
    requires t in s.targets && WantsFit(wants) && CreatedFits(s, t, wants, created)
    requires RefsOk(s.definitions, s.targets, s.assignments) && IntervalsOk(s.assignments)
    requires ManagersOk(s.targets, s.assignments) && s.targets[t].managed.Config?
    ensures IntervalsOk(FileAll(s, t, wants, created, moved))
  {
    var after := FileAll(s, t, wants, created, moved);
    forall i, j | i in after && j in after && after[i].target == after[j].target && On(after[i]) && On(after[j])
      ensures after[i].policy.interval == after[j].policy.interval
    {
      if after[i].target == t {
        FiledOn(s, t, wants, created, moved, i);
        FiledOn(s, t, wants, created, moved, j);
      } else {
        assert after[i] == s.assignments[i] && after[j] == s.assignments[j];
      }
    }
  }

  lemma {:induction false} PolicyFiled(a: Assignment, name: Name, wants: map<Name, Policy>, moved: bool, now: Stamp,
      timeout: Option<nat>)
    requires WantsFit(wants) && PolicyFits(a.policy, timeout) && (a.managed.Config? ==> timeout.None?)
    ensures PolicyFits(Filed(a, name, wants, moved, now).policy, timeout)
  {
  }

  lemma {:induction false} PoliciesFiled(s: State, t: TargetId, wants: map<Name, Policy>, created: map<Id, DefId>,
      moved: bool)
    requires t in s.targets && s.targets[t].managed.Config? && WantsFit(wants) && CreatedFits(s, t, wants, created)
    requires RefsOk(s.definitions, s.targets, s.assignments) && ManagersOk(s.targets, s.assignments)
    requires BuiltinOk(s.definitions, s.targets, s.assignments) && PoliciesOk(s.definitions, s.assignments)
    ensures PoliciesOk(s.definitions, FileAll(s, t, wants, created, moved))
  {
    var after := FileAll(s, t, wants, created, moved);
    forall id | id in after && after[id].definition in s.definitions
      ensures PolicyFits(after[id].policy, s.definitions[after[id].definition].timeout)
    {
      if id !in created && s.assignments[id].target == t {
        var d := s.definitions[s.assignments[id].definition];
        PolicyFiled(s.assignments[id], d.name, wants, moved, s.clock, d.timeout);
      }
    }
  }

  // ------------------------------------------------------------ every step, one fact at a time

  /** A change through the API of an assignment. */
  predicate Changes(step: Step) {
    step.Create? || step.Update? || step.Approve? || step.Reject? || step.Delete?
  }

  /** A change of the probe definitions. */
  predicate Defines(step: Step) {
    step.CreateDefinition? || step.AddVersion? || step.SetEnabled?
  }

  lemma {:induction false} RefsKeptByChange(s: State, step: Step)
    requires Enabled(s, step) && Changes(step)
    requires RefsOk(s.definitions, s.targets, s.assignments)
    ensures var t := Next(s, step); RefsOk(t.definitions, t.targets, t.assignments)
  {
  }

  lemma {:induction false} RefsKeptByFile(s: State, step: Step)
    requires Enabled(s, step) && step.ApplyFile?
    requires RefsOk(s.definitions, s.targets, s.assignments)
    ensures var t := Next(s, step); RefsOk(t.definitions, t.targets, t.assignments)
  {
  }

  lemma {:induction false} RefsKeptOtherwise(s: State, step: Step)
    requires Enabled(s, step) && !Changes(step) && !step.ApplyFile?
    requires RefsOk(s.definitions, s.targets, s.assignments)
    ensures var t := Next(s, step); RefsOk(t.definitions, t.targets, t.assignments)
  {
  }

  lemma {:induction false} RefsKept(s: State, step: Step)
    requires Enabled(s, step) && Inv(s)
    ensures var t := Next(s, step); RefsOk(t.definitions, t.targets, t.assignments)
  {
    if Changes(step) { RefsKeptByChange(s, step); }
    else if step.ApplyFile? { RefsKeptByFile(s, step); }
    else { RefsKeptOtherwise(s, step); }
  }

  lemma {:induction false} ManagersKeptByChange(s: State, step: Step)
    requires Enabled(s, step) && Changes(step)
    requires RefsOk(s.definitions, s.targets, s.assignments) && ManagersOk(s.targets, s.assignments)
    ensures var t := Next(s, step); ManagersOk(t.targets, t.assignments)
  {
  }

  lemma {:induction false} ManagersKeptByFile(s: State, step: Step)
    requires Enabled(s, step) && step.ApplyFile?
    requires RefsOk(s.definitions, s.targets, s.assignments) && ManagersOk(s.targets, s.assignments)
    ensures var t := Next(s, step); ManagersOk(t.targets, t.assignments)
  {
  }

  lemma {:induction false} ManagersKeptOtherwise(s: State, step: Step)
    requires Enabled(s, step) && !Changes(step) && !step.ApplyFile?
    requires RefsOk(s.definitions, s.targets, s.assignments) && ManagersOk(s.targets, s.assignments)
    ensures var t := Next(s, step); ManagersOk(t.targets, t.assignments)
  {
  }

  lemma {:induction false} ManagersKept(s: State, step: Step)
    requires Enabled(s, step) && Inv(s)
    ensures var t := Next(s, step); ManagersOk(t.targets, t.assignments)
  {
    if Changes(step) { ManagersKeptByChange(s, step); }
    else if step.ApplyFile? { ManagersKeptByFile(s, step); }
    else { ManagersKeptOtherwise(s, step); }
  }

  lemma {:induction false} VersionsKeptByChange(s: State, step: Step)
    requires Enabled(s, step) && Changes(step)
    requires VersionsOk(s.definitions)
    ensures var t := Next(s, step); VersionsOk(t.definitions)
  {
  }

  lemma {:induction false} VersionsKeptByFile(s: State, step: Step)
    requires Enabled(s, step) && step.ApplyFile?
    requires VersionsOk(s.definitions)
    ensures var t := Next(s, step); VersionsOk(t.definitions)
  {
  }

  lemma {:induction false} VersionsKeptOtherwise(s: State, step: Step)
    requires Enabled(s, step) && !Changes(step) && !step.ApplyFile?
    requires VersionsOk(s.definitions)
    ensures var t := Next(s, step); VersionsOk(t.definitions)
  {
  }

  lemma {:induction false} VersionsKept(s: State, step: Step)
    requires Enabled(s, step) && Inv(s)
    ensures var t := Next(s, step); VersionsOk(t.definitions)
  {
    if Changes(step) { VersionsKeptByChange(s, step); }
    else if step.ApplyFile? { VersionsKeptByFile(s, step); }
    else { VersionsKeptOtherwise(s, step); }
  }

  lemma {:induction false} BuiltinKeptByChange(s: State, step: Step)
    requires Enabled(s, step) && Changes(step)
    requires BuiltinOk(s.definitions, s.targets, s.assignments) && RefsOk(s.definitions, s.targets, s.assignments)
    requires ManagersOk(s.targets, s.assignments)
    ensures var t := Next(s, step); BuiltinOk(t.definitions, t.targets, t.assignments)
  {
  }

  lemma {:induction false} BuiltinKeptByFile(s: State, step: Step)
    requires Enabled(s, step) && step.ApplyFile?
    requires BuiltinOk(s.definitions, s.targets, s.assignments) && RefsOk(s.definitions, s.targets, s.assignments)
    requires ManagersOk(s.targets, s.assignments)
    ensures var t := Next(s, step); BuiltinOk(t.definitions, t.targets, t.assignments)
  {
  }

  lemma {:induction false} BuiltinKeptOtherwise(s: State, step: Step)
    requires Enabled(s, step) && !Changes(step) && !step.ApplyFile?
    requires BuiltinOk(s.definitions, s.targets, s.assignments) && RefsOk(s.definitions, s.targets, s.assignments)
    requires ManagersOk(s.targets, s.assignments)
    ensures var t := Next(s, step); BuiltinOk(t.definitions, t.targets, t.assignments)
  {
  }

  lemma {:induction false} BuiltinKept(s: State, step: Step)
    requires Enabled(s, step) && Inv(s)
    ensures var t := Next(s, step); BuiltinOk(t.definitions, t.targets, t.assignments)
  {
    if Changes(step) { BuiltinKeptByChange(s, step); }
    else if step.ApplyFile? { BuiltinKeptByFile(s, step); }
    else { BuiltinKeptOtherwise(s, step); }
  }

  lemma {:induction false} ProbesKeptByChange(s: State, step: Step)
    requires Enabled(s, step) && Changes(step)
    requires ProbesOk(s.definitions, s.assignments) && RefsOk(s.definitions, s.targets, s.assignments)
      && VersionsOk(s.definitions) && BuiltinOk(s.definitions, s.targets, s.assignments)
    requires ManagersOk(s.targets, s.assignments)
    ensures var t := Next(s, step); ProbesOk(t.definitions, t.assignments)
  {
  }

  lemma {:induction false} ProbesKeptByFile(s: State, step: Step)
    requires Enabled(s, step) && step.ApplyFile?
    requires ProbesOk(s.definitions, s.assignments) && RefsOk(s.definitions, s.targets, s.assignments)
      && VersionsOk(s.definitions) && BuiltinOk(s.definitions, s.targets, s.assignments)
    requires ManagersOk(s.targets, s.assignments)
    ensures var t := Next(s, step); ProbesOk(t.definitions, t.assignments)
  {
    ProbesFiled(s, step.t, step.wants, step.created, step.connection != s.targets[step.t].connection);
  }

  lemma {:induction false} ProbesKeptByDefinition(s: State, step: Step)
    requires Enabled(s, step) && Defines(step)
    requires ProbesOk(s.definitions, s.assignments) && RefsOk(s.definitions, s.targets, s.assignments)
      && VersionsOk(s.definitions) && BuiltinOk(s.definitions, s.targets, s.assignments)
    requires ManagersOk(s.targets, s.assignments)
    ensures var t := Next(s, step); ProbesOk(t.definitions, t.assignments)
  {
  }

  /** Probes stay distinct where no assignment changes its target or definition. */
  lemma {:induction false} ProbesSame(ds: Definitions, a: Assignments, b: Assignments)
    requires ProbesOk(ds, a)
    requires forall id | id in b :: id in a && b[id].target == a[id].target && b[id].definition == a[id].definition
    ensures ProbesOk(ds, b)
  {
  }

  lemma {:induction false} ProbesKeptOtherwise(s: State, step: Step)
    requires Enabled(s, step) && !Changes(step) && !step.ApplyFile? && !Defines(step)
    requires ProbesOk(s.definitions, s.assignments) && RefsOk(s.definitions, s.targets, s.assignments)
      && VersionsOk(s.definitions) && BuiltinOk(s.definitions, s.targets, s.assignments)
    requires ManagersOk(s.targets, s.assignments)
    ensures var t := Next(s, step); ProbesOk(t.definitions, t.assignments)
  {
    ProbesSame(s.definitions, s.assignments, Next(s, step).assignments);
  }

  lemma {:induction false} ProbesKept(s: State, step: Step)
    requires Enabled(s, step) && Inv(s)
    ensures var t := Next(s, step); ProbesOk(t.definitions, t.assignments)
  {
    if Changes(step) { ProbesKeptByChange(s, step); } else if step.ApplyFile? { ProbesKeptByFile(s, step); }
    else if Defines(step) { ProbesKeptByDefinition(s, step); } else { ProbesKeptOtherwise(s, step); }
  }

  lemma {:induction false} IntervalsKeptByChange(s: State, step: Step)
    requires Enabled(s, step) && Changes(step)
    requires IntervalsOk(s.assignments) && RefsOk(s.definitions, s.targets, s.assignments)
    requires ManagersOk(s.targets, s.assignments)
    ensures var t := Next(s, step); IntervalsOk(t.assignments)
  {
  }

  lemma {:induction false} IntervalsKeptByFile(s: State, step: Step)
    requires Enabled(s, step) && step.ApplyFile?
    requires IntervalsOk(s.assignments) && RefsOk(s.definitions, s.targets, s.assignments)
    requires ManagersOk(s.targets, s.assignments)
    ensures var t := Next(s, step); IntervalsOk(t.assignments)
  {
    IntervalsFiled(s, step.t, step.wants, step.created, step.connection != s.targets[step.t].connection);
  }

  lemma {:induction false} IntervalsKeptOtherwise(s: State, step: Step)
    requires Enabled(s, step) && !Changes(step) && !step.ApplyFile?
    requires IntervalsOk(s.assignments) && RefsOk(s.definitions, s.targets, s.assignments)
    requires ManagersOk(s.targets, s.assignments)
    ensures var t := Next(s, step); IntervalsOk(t.assignments)
  {
  }

  lemma {:induction false} IntervalsKept(s: State, step: Step)
    requires Enabled(s, step) && Inv(s)
    ensures var t := Next(s, step); IntervalsOk(t.assignments)
  {
    if Changes(step) { IntervalsKeptByChange(s, step); }
    else if step.ApplyFile? { IntervalsKeptByFile(s, step); }
    else { IntervalsKeptOtherwise(s, step); }
  }

  lemma {:induction false} PoliciesKeptByChange(s: State, step: Step)
    requires Enabled(s, step) && Changes(step)
    requires PoliciesOk(s.definitions, s.assignments) && RefsOk(s.definitions, s.targets, s.assignments)
      && BuiltinOk(s.definitions, s.targets, s.assignments)
    requires ManagersOk(s.targets, s.assignments)
    ensures var t := Next(s, step); PoliciesOk(t.definitions, t.assignments)
  {
  }

  lemma {:induction false} PoliciesKeptByFile(s: State, step: Step)
    requires Enabled(s, step) && step.ApplyFile?
    requires PoliciesOk(s.definitions, s.assignments) && RefsOk(s.definitions, s.targets, s.assignments)
      && BuiltinOk(s.definitions, s.targets, s.assignments)
    requires ManagersOk(s.targets, s.assignments)
    ensures var t := Next(s, step); PoliciesOk(t.definitions, t.assignments)
  {
    PoliciesFiled(s, step.t, step.wants, step.created, step.connection != s.targets[step.t].connection);
  }

  lemma {:induction false} PoliciesKeptOtherwise(s: State, step: Step)
    requires Enabled(s, step) && !Changes(step) && !step.ApplyFile?
    requires PoliciesOk(s.definitions, s.assignments) && RefsOk(s.definitions, s.targets, s.assignments)
      && BuiltinOk(s.definitions, s.targets, s.assignments)
    requires ManagersOk(s.targets, s.assignments)
    ensures var t := Next(s, step); PoliciesOk(t.definitions, t.assignments)
  {
  }

  lemma {:induction false} PoliciesKept(s: State, step: Step)
    requires Enabled(s, step) && Inv(s)
    ensures var t := Next(s, step); PoliciesOk(t.definitions, t.assignments)
  {
    if Changes(step) { PoliciesKeptByChange(s, step); }
    else if step.ApplyFile? { PoliciesKeptByFile(s, step); }
    else { PoliciesKeptOtherwise(s, step); }
  }

  lemma {:induction false} CoversKeptByChange(s: State, step: Step)
    requires Enabled(s, step) && Changes(step)
    requires CoversOk(s.targets, s.assignments, s.covers) && RefsOk(s.definitions, s.targets, s.assignments)
    requires ManagersOk(s.targets, s.assignments)
    ensures var t := Next(s, step); CoversOk(t.targets, t.assignments, t.covers)
  {
  }

  lemma {:induction false} CoversKeptByFile(s: State, step: Step)
    requires Enabled(s, step) && step.ApplyFile?
    requires CoversOk(s.targets, s.assignments, s.covers) && RefsOk(s.definitions, s.targets, s.assignments)
    requires ManagersOk(s.targets, s.assignments)
    ensures var t := Next(s, step); CoversOk(t.targets, t.assignments, t.covers)
  {
  }

  lemma {:induction false} CoversKeptOtherwise(s: State, step: Step)
    requires Enabled(s, step) && !Changes(step) && !step.ApplyFile?
    requires CoversOk(s.targets, s.assignments, s.covers) && RefsOk(s.definitions, s.targets, s.assignments)
    requires ManagersOk(s.targets, s.assignments)
    ensures var t := Next(s, step); CoversOk(t.targets, t.assignments, t.covers)
  {
  }

  lemma {:induction false} CoversKept(s: State, step: Step)
    requires Enabled(s, step) && Inv(s)
    ensures var t := Next(s, step); CoversOk(t.targets, t.assignments, t.covers)
  {
    if Changes(step) { CoversKeptByChange(s, step); }
    else if step.ApplyFile? { CoversKeptByFile(s, step); }
    else { CoversKeptOtherwise(s, step); }
  }

  lemma {:induction false} StampsKeptByChange(s: State, step: Step)
    requires Enabled(s, step) && Changes(step)
    requires StampsOk(s.assignments, s.clock)
    ensures var t := Next(s, step); StampsOk(t.assignments, t.clock)
  {
  }

  lemma {:induction false} StampsKeptByFile(s: State, step: Step)
    requires Enabled(s, step) && step.ApplyFile?
    requires StampsOk(s.assignments, s.clock)
    ensures var t := Next(s, step); StampsOk(t.assignments, t.clock)
  {
  }

  lemma {:induction false} StampsKeptOtherwise(s: State, step: Step)
    requires Enabled(s, step) && !Changes(step) && !step.ApplyFile?
    requires StampsOk(s.assignments, s.clock)
    ensures var t := Next(s, step); StampsOk(t.assignments, t.clock)
  {
  }

  lemma {:induction false} StampsKept(s: State, step: Step)
    requires Enabled(s, step) && Inv(s)
    ensures var t := Next(s, step); StampsOk(t.assignments, t.clock)
  {
    if Changes(step) { StampsKeptByChange(s, step); }
    else if step.ApplyFile? { StampsKeptByFile(s, step); }
    else { StampsKeptOtherwise(s, step); }
  }

  lemma {:induction false} PendingStamps(s: State)
    requires StampsOk(s.assignments, s.clock)
    ensures ListedBefore(Pending(s), s.clock)
  {
  }

  lemma {:induction false} ListStampsAdded(checks: map<Pid, map<Id, Listed>>, pid: Pid, rows: map<Id, Listed>,
      clock: Stamp)
    requires ListStampsOk(checks, clock) && ListedBefore(rows, clock)
    ensures ListStampsOk(checks[pid := rows], clock)
  {
  }

  lemma {:induction false} ListStampsKept(s: State, step: Step)
    requires Enabled(s, step) && StampsOk(s.assignments, s.clock) && ListStampsOk(s.checks, s.clock)
    ensures var t := Next(s, step); ListStampsOk(t.checks, t.clock)
  {
    if step.List? {
      PendingStamps(s);
      ListStampsAdded(s.checks, step.pid, Pending(s), s.clock);
    } else {
      var t := Next(s, step);
      forall pid | pid in t.checks ensures ListedBefore(t.checks[pid], t.clock) {
        assert pid in s.checks && ListedBefore(s.checks[pid], s.clock) && s.clock <= t.clock;
      }
    }
  }

  lemma {:induction false} ChecksKeptByChange(s: State, step: Step)
    requires Enabled(s, step) && Changes(step)
    requires ChecksOk(s.definitions, s.targets, s.assignments, s.checks)
      && RefsOk(s.definitions, s.targets, s.assignments)
    requires StampsOk(s.assignments, s.clock) && ListStampsOk(s.checks, s.clock)
    requires ManagersOk(s.targets, s.assignments)
    ensures var t := Next(s, step); ChecksOk(t.definitions, t.targets, t.assignments, t.checks)
  {
  }

  lemma {:induction false} ChecksKeptByFile(s: State, step: Step)
    requires Enabled(s, step) && step.ApplyFile?
    requires ChecksOk(s.definitions, s.targets, s.assignments, s.checks)
      && RefsOk(s.definitions, s.targets, s.assignments)
    requires StampsOk(s.assignments, s.clock) && ListStampsOk(s.checks, s.clock)
    requires ManagersOk(s.targets, s.assignments)
    ensures var t := Next(s, step); ChecksOk(t.definitions, t.targets, t.assignments, t.checks)
  {
  }

  lemma {:induction false} ChecksKeptOtherwise(s: State, step: Step)
    requires Enabled(s, step) && !Changes(step) && !step.ApplyFile?
    requires ChecksOk(s.definitions, s.targets, s.assignments, s.checks)
      && RefsOk(s.definitions, s.targets, s.assignments)
    requires StampsOk(s.assignments, s.clock) && ListStampsOk(s.checks, s.clock)
    requires ManagersOk(s.targets, s.assignments)
    ensures var t := Next(s, step); ChecksOk(t.definitions, t.targets, t.assignments, t.checks)
  {
  }

  lemma {:induction false} ChecksKept(s: State, step: Step)
    requires Enabled(s, step) && Inv(s)
    ensures var t := Next(s, step); ChecksOk(t.definitions, t.targets, t.assignments, t.checks)
  {
    if Changes(step) { ChecksKeptByChange(s, step); }
    else if step.ApplyFile? { ChecksKeptByFile(s, step); }
    else { ChecksKeptOtherwise(s, step); }
  }

  // ------------------------------------------------------------ all facts together

  lemma {:induction false} InvKept(s: State, step: Step)
    requires Enabled(s, step) && Inv(s)
    ensures Inv(Next(s, step))
  {
    RefsKept(s, step);
    ManagersKept(s, step);
    VersionsKept(s, step);
    BuiltinKept(s, step);
    ProbesKept(s, step);
    IntervalsKept(s, step);
    PoliciesKept(s, step);
    CoversKept(s, step);
    StampsKept(s, step);
    ListStampsKept(s, step);
    ChecksKept(s, step);
  }
}
