/**
  Exporting log records: requests are encoded and posted in order, each until it is accepted,
  refused for good or given up, and the first that fails stops the export.
*/
module Delivery {
  import opened Basics
  import opened OtlpSplit
  import opened OtlpSplitLaws

  datatype Answer = Accepted | Retryable(after: nat, timeout: bool) | Permanent

  /** One attempt: the answer, whether the context had ended by then, and whether the wait after it elapsed. */
  datatype Attempt = Attempt(answer: Answer, over: bool, waited: bool)

  class Client {
    /** The requests the receiver answered with success. */
    var accepted: seq<Request>
    const maxRequestBytes: int
    const maxAttempts: int
    const initialBackoff: nat
    const maxBackoff: nat

    constructor (maxRequestBytes: int, maxAttempts: int, initialBackoff: nat, maxBackoff: nat)
      ensures accepted == [] && this.maxRequestBytes == maxRequestBytes && this.maxAttempts == maxAttempts
      ensures this.initialBackoff == initialBackoff && this.maxBackoff == maxBackoff
    {
      this.accepted, this.maxRequestBytes, this.maxAttempts := [], maxRequestBytes, maxAttempts;
      this.initialBackoff, this.maxBackoff := initialBackoff, maxBackoff;
    }

    /**
      Posts one request until it is accepted, refused for good, tried often enough, or the
      context ends, as it does when the script of attempts is at its end.
    */
    method Send(request: Request, script: seq<Attempt>) returns (ok: bool, rest: seq<Attempt>, waits: seq<nat>)
      modifies this
      ensures accepted == old(accepted) + (if ok then [request] else [])
      ensures |rest| <= |script| && rest == script[|script| - |rest|..]
      ensures ok ==> |rest| < |script| && script[|script| - |rest| - 1].answer.Accepted?
      ensures maxAttempts > 0 ==> |script| - |rest| <= maxAttempts
      ensures forall w | w in waits :: w <= maxBackoff
      ensures forall i | 0 <= i < |script| - |rest| - 1 ::
        script[i].answer.Retryable? && !script[i].over && script[i].waited
    {
      var backoff := initialBackoff;
      var used := 0;
      waits := [];
      while used < |script|
        invariant used <= |script| && accepted == old(accepted)
        invariant maxAttempts > 0 ==> used < maxAttempts
        invariant forall w | w in waits :: w <= maxBackoff
        invariant forall i | 0 <= i < used :: script[i].answer.Retryable? && !script[i].over && script[i].waited
      {
        var a := script[used];
        used := used + 1;
        rest := script[used..];
        if a.answer.Accepted? {
          accepted := accepted + [request];
          return true, rest, waits;
        }
        if a.answer.Permanent? || (maxAttempts > 0 && used >= maxAttempts) || a.over {
          return false, rest, waits;
        }
        var wait := if a.answer.timeout && a.answer.after == 0 then 0
          else Min(Max(backoff, a.answer.after), maxBackoff);
        waits := waits + [wait];
        if !a.waited { return false, rest, waits; }
        backoff := Min(2 * backoff, maxBackoff);
      }
      return false, [], waits;
    }

    /** Sends the requests of the split in order, up to the first that cannot be encoded or fails. */
    method Export(input: seq<ResourceLogs>, unencodable: set<Request>, script: seq<Attempt>) returns (ok: bool)
      modifies this
      ensures ok ==> accepted == old(accepted) + Requests(input, maxRequestBytes)
      ensures !ok ==> exists n | 0 <= n < |Requests(input, maxRequestBytes)| ::
        accepted == old(accepted) + Requests(input, maxRequestBytes)[..n]
      ensures forall r | r in accepted[|old(accepted)|..] :: r !in unencodable
    {
      var requests := Split(input, maxRequestBytes);
      var left := script;
      for i := 0 to |requests|
        invariant accepted == old(accepted) + requests[..i]
        invariant forall r | r in requests[..i] :: r !in unencodable
      {
        if requests[i] in unencodable { return false; }
        var sent, rest, _ := Send(requests[i], left);
        assert accepted == old(accepted) + requests[..i] + (if sent then [requests[i]] else []);
        if !sent { return false; }
        assert requests[..i + 1] == requests[..i] + [requests[i]];
        left := rest;
      }
      assert requests[..|requests|] == requests;
      ok := true;
    }
  }

  /** What an export that succeeded added to the receiver: every record once, in order, with its resource and scope. */
  lemma {:induction false} ExportedAll(before: seq<Request>, after: seq<Request>, input: seq<ResourceLogs>, limit: int)
    requires after == before + Requests(input, limit)
    ensures AllContents(after[|before|..]) == Contents(input)
  {
    assert after[|before|..] == Requests(input, limit);
    SplitConserves(input, limit);
  }
}

/**
  The audit outbox and its drainers: each claims the oldest rows nobody holds, has them
  delivered, deletes them and commits, as interleaved steps; any may fail or stop at any point.
*/
module Outbox {
  type Seq = nat
  type Pid = nat

  datatype Drainer = Claimed(rows: set<Seq>) | Delivered(rows: set<Seq>) | Deleted(rows: set<Seq>)

  datatype State = State(
    outbox: set<Seq>, drainers: map<Pid, Drainer>, committed: set<Seq>, accepted: set<Seq>)

  datatype Step =
    | Write(row: Seq)
    | Claim(pid: Pid, rows: set<Seq>, limit: nat)
    | Deliver(pid: Pid)
    | DeliverPart(pid: Pid, part: set<Seq>)
    | DeleteRows(pid: Pid)
    | Commit(pid: Pid)
    | End(pid: Pid)

  /** The rows somebody holds. */
  function Locked(drainers: map<Pid, Drainer>): set<Seq> {
    set pid, r | pid in drainers && r in drainers[pid].rows :: r
  }

  /** The oldest of the free rows, up to the limit. */
  predicate Oldest(rows: set<Seq>, free: set<Seq>, limit: nat) {
    && rows <= free && |rows| <= limit && (|rows| < limit ==> rows == free)
    && forall r, f | r in rows && f in free && f !in rows :: r < f
  }

  predicate Enabled(s: State, step: Step) {
    match step
    case Write(r) => r !in s.committed
    case Claim(pid, rows, limit) =>
      pid !in s.drainers && rows != {} && Oldest(rows, s.outbox - Locked(s.drainers), limit)
    case Deliver(pid) => pid in s.drainers && s.drainers[pid].Claimed?
    case DeliverPart(pid, part) => pid in s.drainers && s.drainers[pid].Claimed? && part <= s.drainers[pid].rows
    case DeleteRows(pid) => pid in s.drainers && s.drainers[pid].Delivered?
    case Commit(pid) => pid in s.drainers && s.drainers[pid].Deleted?
    case End(pid) => pid in s.drainers
  }

  function Next(s: State, step: Step): State
    requires Enabled(s, step)
  {
    match step
    case Write(r) => s.(outbox := s.outbox + {r}, committed := s.committed + {r})
    case Claim(pid, rows, _) => s.(drainers := s.drainers[pid := Claimed(rows)])
    case Deliver(pid) =>
      s.(accepted := s.accepted + s.drainers[pid].rows, drainers := s.drainers[pid := Delivered(s.drainers[pid].rows)])
    case DeliverPart(pid, part) => s.(accepted := s.accepted + part, drainers := s.drainers - {pid})
    case DeleteRows(pid) => s.(drainers := s.drainers[pid := Deleted(s.drainers[pid].rows)])
    case Commit(pid) => s.(outbox := s.outbox - s.drainers[pid].rows, drainers := s.drainers - {pid})
    case End(pid) => s.(drainers := s.drainers - {pid})
  }

  /** No record is lost, what a drainer holds is there, and what it is to delete was accepted. */
  ghost predicate Inv(s: State) {
    && s.committed <= s.outbox + s.accepted && s.outbox <= s.committed
    && (forall pid | pid in s.drainers :: s.drainers[pid].rows <= s.outbox)
    && (forall pid | pid in s.drainers && !s.drainers[pid].Claimed? :: s.drainers[pid].rows <= s.accepted)
    && Exclusive(s.drainers)
  }

  /** No two drainers hold one row. */
  ghost predicate Exclusive(drainers: map<Pid, Drainer>) {
    forall p, q | p in drainers && q in drainers && p != q :: drainers[p].rows !! drainers[q].rows
  }

  lemma {:induction false} ClaimExclusive(drainers: map<Pid, Drainer>, pid: Pid, rows: set<Seq>)
    requires Exclusive(drainers) && pid !in drainers && rows !! Locked(drainers)
    ensures Exclusive(drainers[pid := Claimed(rows)])
  {
    forall q | q in drainers ensures drainers[q].rows !! rows {
      forall r | r in drainers[q].rows ensures r in Locked(drainers) {}
    }
  }

  lemma {:induction false} InvKept(s: State, step: Step)
    requires Enabled(s, step) && Inv(s)
    ensures Inv(Next(s, step))
  {
    if step.Claim? { ClaimExclusive(s.drainers, step.pid, step.rows); }
  }

  ghost predicate Moves(s: State, t: State) {
    exists step :: Enabled(s, step) && t == Next(s, step)
  }

  ghost predicate Run(run: seq<State>) {
    && run != [] && run[0] == State({}, map[], {}, {})
    && forall i | 0 <= i < |run| - 1 :: Moves(run[i], run[i + 1])
  }

  /**
    In every state of every run, every committed audit record is in the outbox or was accepted,
    and no two drainers hold the same row.
  */
  lemma {:induction false} NoRecordLost(run: seq<State>, i: nat)
    requires Run(run) && i < |run|
    ensures Inv(run[i])
    ensures forall r | r in run[i].committed :: r in run[i].outbox || r in run[i].accepted
  {
    if i > 0 {
      NoRecordLost(run, i - 1);
      assert Moves(run[i - 1], run[i - 1 + 1]);
      var step :| Enabled(run[i - 1], step) && run[i] == Next(run[i - 1], step);
      InvKept(run[i - 1], step);
    }
  }
}

/**
  One round of a drainer, from the rows it claimed to the step of the outbox that it is.
*/
module Draining {
  import opened OtlpSplit
  import opened OtlpSplitLaws
  import opened Delivery
  import O = Outbox

  datatype Row = Row(number: O.Seq, body: string, size: nat)

  function RecordOf(r: Row): Record {
    Record(r.body, r.size)
  }

  /** The rows as log records, under one resource and scope. */
  function LogsOf(resource: Header, scope: Header, rows: seq<Row>): seq<ResourceLogs> {
    [ResourceLogs(resource, [ScopeLogs(scope, seq(|rows|, i requires 0 <= i < |rows| => RecordOf(rows[i])))])]
  }

  function LabelledRows(resource: Header, scope: Header, rows: seq<Row>): seq<Labelled> {
    seq(|rows|, i requires 0 <= i < |rows| => Labelled(resource, scope, RecordOf(rows[i])))
  }

  function Numbers(rows: seq<Row>): set<O.Seq> {
    set i | 0 <= i < |rows| :: rows[i].number
  }

  lemma {:induction false} RecordsAre(resource: Header, scope: Header, rows: seq<Row>, records: seq<Record>)
    requires |records| == |rows| && forall i | 0 <= i < |rows| :: records[i] == RecordOf(rows[i])
    ensures RecordsContents(resource, scope, records) == LabelledRows(resource, scope, rows)
  {
    if rows != [] {
      var n := |rows| - 1;
      RecordsAre(resource, scope, rows[..n], records[..n]);
    }
  }

  lemma {:induction false} LogsAre(resource: Header, scope: Header, rows: seq<Row>)
    ensures Contents(LogsOf(resource, scope, rows)) == LabelledRows(resource, scope, rows)
  {
    var rl := LogsOf(resource, scope, rows)[0];
    var sl := rl.scopes[0];
    RecordsAre(resource, scope, rows, sl.records);
    ScopesContentsLast(resource, [], sl);
    ContentsLast([], rl);
    assert [] + [sl] == rl.scopes && [] + [rl] == LogsOf(resource, scope, rows);
  }

  lemma {:induction false} FirstRequests(rs: seq<Request>, n: nat)
    requires n <= |rs|
    ensures AllContents(rs[..n]) <= AllContents(rs)
  {
    if n < |rs| {
      FirstRequests(rs[..|rs| - 1], n);
      assert rs[..|rs| - 1][..n] == rs[..n];
    } else {
      assert rs[..n] == rs;
    }
  }

  /**
    Sends the rows.  What the receiver accepted of them is all of them, each once and in order,
    when it says so, and otherwise those of a first part of the requests.
  */
  method Deliver(client: Client, resource: Header, scope: Header, rows: seq<Row>, unencodable: set<Request>,
      script: seq<Attempt>)
    returns (ok: bool, ghost sent: seq<Request>)
    modifies client
    ensures client.accepted == old(client.accepted) + sent
    ensures AllContents(sent) <= LabelledRows(resource, scope, rows)
    ensures ok ==> AllContents(sent) == LabelledRows(resource, scope, rows)
  {
    var logs := LogsOf(resource, scope, rows);
    LogsAre(resource, scope, rows);
    SplitConserves(logs, client.maxRequestBytes);
    ok := client.Export(logs, unencodable, script);
    ghost var requests := Requests(logs, client.maxRequestBytes);
    if ok {
      sent := requests;
    } else {
      ghost var n :| 0 <= n < |requests| && client.accepted == old(client.accepted) + requests[..n];
      FirstRequests(requests, n);
      sent := requests[..n];
    }
  }

  /** The step of the outbox that a round's delivery is, with as many rows accepted. */
  function DeliveryStep(pid: O.Pid, rows: seq<Row>, ok: bool, accepted: nat): O.Step
    requires accepted <= |rows|
  {
    if ok then O.Step.Deliver(pid) else O.DeliverPart(pid, Numbers(rows[..accepted]))
  }

  /** It can be taken, and adds to what was accepted just the rows that were. */
  lemma {:induction false} DeliveryIsAStep(s: O.State, pid: O.Pid, rows: seq<Row>, ok: bool, accepted: nat)
    requires pid in s.drainers && s.drainers[pid] == O.Claimed(Numbers(rows))
    requires accepted <= |rows| && (ok ==> accepted == |rows|)
    ensures var step := DeliveryStep(pid, rows, ok, accepted);
      O.Enabled(s, step) && O.Next(s, step).accepted == s.accepted + Numbers(rows[..accepted])
  {
    assert ok ==> rows[..accepted] == rows;
    forall r | r in Numbers(rows[..accepted]) ensures r in Numbers(rows) {
      var i :| 0 <= i < accepted && rows[..accepted][i].number == r;
      assert rows[i].number == r;
    }
  }

  /** A round: the rows the receiver accepted are those that the outbox's step accepts. */
  method Round(client: Client, resource: Header, scope: Header, rows: seq<Row>, unencodable: set<Request>,
      script: seq<Attempt>, ghost s: O.State, ghost pid: O.Pid)
    returns (ok: bool, ghost t: O.State)
    requires pid in s.drainers && s.drainers[pid] == O.Claimed(Numbers(rows))
    modifies client
    ensures O.Moves(s, t)
    ensures exists sent, n | 0 <= n <= |rows| ::
      && client.accepted == old(client.accepted) + sent
      && AllContents(sent) == LabelledRows(resource, scope, rows)[..n]
      && t.accepted == s.accepted + Numbers(rows[..n])
      && (ok ==> n == |rows|)
    ensures t.drainers == if ok then s.drainers[pid := O.Delivered(Numbers(rows))] else s.drainers - {pid}
  {
    ghost var sent: seq<Request>;
    ok, sent := Deliver(client, resource, scope, rows, unencodable, script);
    ghost var n := |AllContents(sent)|;
    DeliveryIsAStep(s, pid, rows, ok, n);
    t := O.Next(s, DeliveryStep(pid, rows, ok, n));
  }
}
