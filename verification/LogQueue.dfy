/**
  The queue of a service's own log records: concurrent add calls, the goroutine that batches and
  exports, and the counters, as interleaved atomic steps.
*/
module LogQueue {
  datatype Record = Record(id: nat, size: nat)

  const MAX_QUEUED_BYTES: nat := 8 * 1024 * 1024
  const MAX_QUEUED_RECORDS: nat := 1024
  const MAX_BATCH_RECORDS: nat := 256

  /** Where an add call is. */
  datatype Call =
    | Reserved(record: Record)  // its bytes are counted, and were within the bound
    | Refused(record: Record)   // its bytes are counted, and it is to be dropped
    | Returned(record: Record)  // its bytes are taken back; the drop is to be counted

  /** Where the batch is: being filled, at the exporter, or exported with its bytes still counted. */
  datatype Batch = Filling | Exporting | Counted

  datatype State = State(
    queuedBytes: int, calls: seq<Call>, pending: seq<Record>, batch: seq<Record>, at: Batch,
    added: nat, exported: nat, droppedQueueFull: nat, droppedExportFailed: nat)

  datatype Step =
    | Add(record: Record)
    | Send(i: nat)
    | TakeBack(i: nat)
    | CountDrop(i: nat)
    | Receive
    | Flush
    | ExportEnds(ok: bool)
    | Release

  function Without(calls: seq<Call>, i: nat): seq<Call>
    requires i < |calls|
  {
    calls[..i] + calls[i + 1..]
  }

  predicate Enabled(s: State, step: Step) {
    match step
    case Add(_) => true
    case Send(i) => i < |s.calls| && s.calls[i].Reserved?
    case TakeBack(i) => i < |s.calls| && s.calls[i].Refused?
    case CountDrop(i) => i < |s.calls| && s.calls[i].Returned?
    case Receive => s.at.Filling? && s.pending != [] && |s.batch| < MAX_BATCH_RECORDS
    case Flush => s.at.Filling?
    case ExportEnds(_) => s.at.Exporting?
    case Release => s.at.Counted?
  }

  function Next(s: State, step: Step): State
    requires Enabled(s, step)
  {
    match step
    case Add(r) =>
      var bytes := s.queuedBytes + r.size;
      s.(queuedBytes := bytes, added := s.added + 1,
         calls := s.calls + [if bytes > MAX_QUEUED_BYTES then Refused(r) else Reserved(r)])
    case Send(i) =>
      if |s.pending| < MAX_QUEUED_RECORDS
      then s.(pending := s.pending + [s.calls[i].record], calls := Without(s.calls, i))
      else s.(calls := s.calls[i := Refused(s.calls[i].record)])
    case TakeBack(i) =>
      s.(queuedBytes := s.queuedBytes - s.calls[i].record.size, calls := s.calls[i := Returned(s.calls[i].record)])
    case CountDrop(i) => s.(droppedQueueFull := s.droppedQueueFull + 1, calls := Without(s.calls, i))
    case Receive => s.(pending := s.pending[1..], batch := s.batch + [s.pending[0]])
    case Flush => if s.batch == [] then s else s.(at := Exporting)
    case ExportEnds(ok) =>
      if ok then s.(at := Counted, exported := s.exported + |s.batch|)
      else s.(at := Counted, droppedExportFailed := s.droppedExportFailed + |s.batch|)
    case Release => s.(queuedBytes := s.queuedBytes - Bytes(s.batch), batch := [], at := Filling)
  }

  // ------------------------------------------------------------ what every step keeps

  function Bytes(rs: seq<Record>): nat {
    if rs == [] then 0 else Bytes(rs[..|rs| - 1]) + rs[|rs| - 1].size
  }

  /** The bytes a call has counted. */
  function Held(c: Call): nat {
    if c.Returned? then 0 else c.record.size
  }

  function HeldBytes(calls: seq<Call>): nat {
    if calls == [] then 0 else HeldBytes(calls[..|calls| - 1]) + Held(calls[|calls| - 1])
  }

  /** The bytes of the calls that are to be accepted. */
  function ReservedBytes(calls: seq<Call>): nat {
    if calls == [] then 0
    else
      ReservedBytes(calls[..|calls| - 1])
      + (if calls[|calls| - 1].Reserved? then calls[|calls| - 1].record.size else 0)
  }

  /** Every record added is exported, dropped, or on its way. */
  predicate Conserved(s: State) {
    s.added == s.exported + s.droppedQueueFull + s.droppedExportFailed + |s.calls| + |s.pending|
               + (if s.at.Counted? then 0 else |s.batch|)
  }

  /** The counter is the bytes of what is on its way, and what was accepted fits the bound. */
  predicate Accounted(s: State) {
    && s.queuedBytes == HeldBytes(s.calls) + Bytes(s.pending) + Bytes(s.batch)
    && ReservedBytes(s.calls) + Bytes(s.pending) + Bytes(s.batch) <= MAX_QUEUED_BYTES
  }

  ghost predicate Inv(s: State) {
    Conserved(s) && Accounted(s) && |s.pending| <= MAX_QUEUED_RECORDS && |s.batch| <= MAX_BATCH_RECORDS
  }

  lemma {:induction false} BytesPush(rs: seq<Record>, r: Record)
    ensures Bytes(rs + [r]) == Bytes(rs) + r.size
  {
    assert (rs + [r])[..|rs|] == rs;
  }

  lemma {:induction false} BytesPop(rs: seq<Record>)
    requires rs != []
    ensures Bytes(rs) == rs[0].size + Bytes(rs[1..])
  {
    if |rs| > 1 {
      assert rs[..|rs| - 1][1..] == rs[1..][..|rs| - 2];
      BytesPop(rs[..|rs| - 1]);
    }
  }

  lemma {:induction false} CallsPush(calls: seq<Call>, c: Call)
    ensures HeldBytes(calls + [c]) == HeldBytes(calls) + Held(c)
    ensures ReservedBytes(calls + [c]) == ReservedBytes(calls) + (if c.Reserved? then c.record.size else 0)
  {
    assert (calls + [c])[..|calls|] == calls;
  }

  lemma {:induction false} CallsRemove(calls: seq<Call>, i: nat)
    requires i < |calls|
    ensures HeldBytes(Without(calls, i)) == HeldBytes(calls) - Held(calls[i])
    ensures ReservedBytes(Without(calls, i))
      == ReservedBytes(calls) - (if calls[i].Reserved? then calls[i].record.size else 0)
    decreases |calls|
  {
    var n := |calls| - 1;
    if i < n {
      CallsRemove(calls[..n], i);
      assert Without(calls, i) == Without(calls[..n], i) + [calls[n]];
      CallsPush(Without(calls[..n], i), calls[n]);
    } else {
      assert Without(calls, i) == calls[..n];
    }
  }

  lemma {:induction false} CallsSet(calls: seq<Call>, i: nat, c: Call)
    requires i < |calls|
    ensures HeldBytes(calls[i := c]) == HeldBytes(calls) - Held(calls[i]) + Held(c)
    ensures ReservedBytes(calls[i := c])
      == ReservedBytes(calls) - (if calls[i].Reserved? then calls[i].record.size else 0)
                                            + (if c.Reserved? then c.record.size else 0)
    decreases |calls|
  {
    var n := |calls| - 1;
    if i < n {
      CallsSet(calls[..n], i, c);
      assert calls[i := c] == calls[..n][i := c] + [calls[n]];
      CallsPush(calls[..n][i := c], calls[n]);
    } else {
      assert calls[i := c][..n] == calls[..n];
    }
  }

  lemma {:induction false} ReservedAreHeld(calls: seq<Call>)
    ensures ReservedBytes(calls) <= HeldBytes(calls)
  {
    if calls != [] { ReservedAreHeld(calls[..|calls| - 1]); }
  }

  lemma {:induction false} AccountedKept(s: State, step: Step)
    requires Enabled(s, step) && Accounted(s)
    ensures Accounted(Next(s, step))
  {
    match step
    case Add(r) =>
      ReservedAreHeld(s.calls);
      CallsPush(s.calls, if s.queuedBytes + r.size > MAX_QUEUED_BYTES then Refused(r) else Reserved(r));
    case Send(i) =>
      BytesPush(s.pending, s.calls[i].record);
      CallsRemove(s.calls, i);
      CallsSet(s.calls, i, Refused(s.calls[i].record));
    case TakeBack(i) => CallsSet(s.calls, i, Returned(s.calls[i].record));
    case CountDrop(i) => CallsRemove(s.calls, i);
    case Receive =>
      BytesPop(s.pending);
      BytesPush(s.batch, s.pending[0]);
    case Flush =>
    case ExportEnds(_) =>
    case Release =>
  }

  lemma {:induction false} InvKept(s: State, step: Step)
    requires Enabled(s, step) && Inv(s)
    ensures Inv(Next(s, step))
  {
    AccountedKept(s, step);
  }

  ghost predicate Moves(s: State, t: State) {
    exists step :: Enabled(s, step) && t == Next(s, step)
  }

  ghost predicate Run(run: seq<State>) {
    && run != [] && run[0] == State(0, [], [], [], Filling, 0, 0, 0, 0)
    && forall i | 0 <= i < |run| - 1 :: Moves(run[i], run[i + 1])
  }

  /**
    In every state of every run each record added is exported, counted as dropped, in the queue,
    in the batch or with a call in progress; the byte counter is the bytes of those that hold
    any; and the accepted records that are not sent fit the bound.
  */
  lemma {:induction false} QueueConserves(run: seq<State>, i: nat)
    requires Run(run) && i < |run|
    ensures Conserved(run[i]) && Accounted(run[i])
    ensures run[i].calls == [] && run[i].pending == [] && run[i].batch == [] ==>
      run[i].queuedBytes == 0 && run[i].added == run[i].exported + run[i].droppedQueueFull + run[i].droppedExportFailed
  {
    RunInv(run, i);
  }

  lemma {:induction false} RunInv(run: seq<State>, i: nat)
    requires Run(run) && i < |run|
    ensures Inv(run[i])
  {
    if i > 0 {
      RunInv(run, i - 1);
      assert Moves(run[i - 1], run[i - 1 + 1]);
      var step :| Enabled(run[i - 1], step) && run[i] == Next(run[i - 1], step);
      InvKept(run[i - 1], step);
    }
  }
}
